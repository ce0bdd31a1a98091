/** The order history page: the month filter, the order summary and its
    rounding, the per-row totals with their fallback, the zero-baseline
    change rule, the sort-header toggle, and the page state (expanded rows,
    the order under edit). */
module OrderList {
  import opened Base
  import opened Orders
  import Text

  // ----- month filter -----

  /** An order's time lies in `[startMs, endMs]`; an unreadable time is in
      no range. */
  predicate InRange(o: Order, startMs: int, endMs: int)
  {
    o.orderedAt.Some? && startMs <= o.orderedAt.value <= endMs
  }

  /** `filterOrdersByRange`: a missing list gives nothing; otherwise the
      orders inside the range, both bounds included, in list order. */
  function FilterByRange(list: Option<seq<Order>>, startMs: int, endMs: int): (r: seq<Order>)
    ensures list.None? ==> r == []
    ensures list.Some? ==> |r| <= |list.value|
    ensures list.Some? ==> forall i :: 0 <= i < |r| ==> r[i] in list.value && InRange(r[i], startMs, endMs)
    ensures list.Some? ==> forall i :: 0 <= i < |list.value| && InRange(list.value[i], startMs, endMs) ==>
      list.value[i] in r
  {
    match list
    case None => []
    case Some(os) => Filter(os, (o: Order) => InRange(o, startMs, endMs))
  }

  /** Two ranges that do not overlap share no order: an order is counted
      in this month or last month, never both. */
  lemma DisjointRanges(list: seq<Order>, lastStart: int, lastEnd: int, curStart: int, curEnd: int)
    requires lastEnd < curStart
    ensures forall o :: o in FilterByRange(Some(list), lastStart, lastEnd) ==>
      o !in FilterByRange(Some(list), curStart, curEnd)
  {
    var last := FilterByRange(Some(list), lastStart, lastEnd);
    var cur := FilterByRange(Some(list), curStart, curEnd);
    forall o | o in last
      ensures o !in cur
    {
      assert InRange(o, lastStart, lastEnd);
      assert o in cur ==> InRange(o, curStart, curEnd);
    }
  }

  // ----- summaries -----

  /** The quantities of an order's lines added up; `None` (NaN) as soon as
      one quantity is missing. */
  function QuantitySum(ps: seq<OrderProduct>): (r: Option<int>)
    ensures r.Some? <==> forall i :: 0 <= i < |ps| ==> ps[i].quantity.Some?
  {
    if ps == [] then Some(0)
    else match (ps[0].quantity, QuantitySum(ps[1..]))
      case (Some(q), Some(rest)) => Some(q + rest)
      case _ => None
  }

  /** The item count of one order as the page computes it: the quantity
      sum, and 0 when the order has no lines or the sum is NaN. */
  function ItemsOf(o: Order): int
  {
    if o.orderProducts.None? then 0 else QuantitySum(o.orderProducts.value).GetOr(0)
  }

  /** Total revenue: stored totals added up, a missing one counting 0. */
  function RevenueOf(list: seq<Order>): int
  {
    if list == [] then 0 else list[0].totalPrice.GetOr(0) + RevenueOf(list[1..])
  }

  /** Total item count over the orders. */
  function ItemsSum(list: seq<Order>): int
  {
    if list == [] then 0 else ItemsOf(list[0]) + ItemsSum(list[1..])
  }

  datatype Summary = Summary(totalRevenue: int, totalOrders: int, totalItems: int, averageOrder: int)

  /** `summarizeOrders`. */
  function Summarize(list: seq<Order>): (s: Summary)
    ensures s.totalOrders == |list|
    ensures s.totalRevenue == RevenueOf(list) && s.totalItems == ItemsSum(list)
    ensures |list| == 0 ==> s.averageOrder == 0 && s.totalRevenue == 0 && s.totalItems == 0
    ensures |list| > 0 ==>
      2 * |list| * s.averageOrder - |list| <= 2 * s.totalRevenue < 2 * |list| * s.averageOrder + |list|
  {
    var revenue := RevenueOf(list);
    Summary(revenue, |list|, ItemsSum(list), if |list| > 0 then RoundDiv(revenue, |list|) else 0)
  }

  /** Revenue, item count and order count add up over a concatenation of
      order lists. */
  lemma {:induction false} SummaryAppend(a: seq<Order>, b: seq<Order>)
    ensures Summarize(a + b).totalRevenue == Summarize(a).totalRevenue + Summarize(b).totalRevenue
    ensures Summarize(a + b).totalItems == Summarize(a).totalItems + Summarize(b).totalItems
    ensures Summarize(a + b).totalOrders == Summarize(a).totalOrders + Summarize(b).totalOrders
  {
    if a != [] {
      assert (a + b)[1..] == a[1..] + b;
      SummaryAppend(a[1..], b);
    } else {
      assert a + b == b;
    }
  }

  // ----- per-row totals -----

  /** Price times quantity over the lines; a price that is not a number
      and a missing quantity count 0. */
  function LinesTotal(ps: seq<OrderProduct>): int
  {
    if ps == [] then 0 else ps[0].product.price.GetOr(0) * ps[0].quantity.GetOr(0) + LinesTotal(ps[1..])
  }

  datatype RowTotals = RowTotals(totalQty: int, totalPrice: int)

  /** `getOrderTotals`: the item count as in the summary, and the stored
      total when there is one, the lines' own total otherwise (0 without
      lines). */
  function OrderTotals(o: Order): (r: RowTotals)
    ensures r.totalQty == ItemsOf(o)
    ensures o.totalPrice.Some? ==> r.totalPrice == o.totalPrice.value
    ensures o.totalPrice.None? && o.orderProducts.None? ==> r.totalPrice == 0
    ensures o.totalPrice.None? && o.orderProducts.Some? ==> r.totalPrice == LinesTotal(o.orderProducts.value)
  {
    var qty := if o.orderProducts.None? then 0 else QuantitySum(o.orderProducts.value).GetOr(0);
    var fallback := if o.orderProducts.None? then 0 else LinesTotal(o.orderProducts.value);
    RowTotals(qty, o.totalPrice.GetOr(fallback))
  }

  function RowQtySum(list: seq<Order>): int
  {
    if list == [] then 0 else OrderTotals(list[0]).totalQty + RowQtySum(list[1..])
  }

  function RowPriceSum(list: seq<Order>): int
  {
    if list == [] then 0 else OrderTotals(list[0]).totalPrice + RowPriceSum(list[1..])
  }

  /** The table rows agree with the summary: their quantities add up to
      the summary's item count, and when every order has a stored total
      their totals add up to the summary's revenue. */
  lemma {:induction false} RowsAgreeWithSummary(list: seq<Order>)
    ensures RowQtySum(list) == Summarize(list).totalItems
    ensures (forall i :: 0 <= i < |list| ==> list[i].totalPrice.Some?) ==>
      RowPriceSum(list) == Summarize(list).totalRevenue
  {
    if list != [] {
      RowsAgreeWithSummary(list[1..]);
      assert forall i :: 0 <= i < |list[1..]| ==> list[1..][i] == list[i + 1];
    }
  }

  /** When an order has no stored total, its row and the summary
      disagree: the row shows what its lines are worth, the summary counts
      0. */
  lemma RowFallbackNotInSummary(o: Order)
    requires o.totalPrice.None? && o.orderProducts.Some?
    ensures OrderTotals(o).totalPrice == LinesTotal(o.orderProducts.value)
    ensures Summarize([o]).totalRevenue == 0
  {
    assert RevenueOf([o]) == o.totalPrice.GetOr(0) + RevenueOf([]);
  }

  /** What the rows show for the orders without a stored total. */
  function FallbackSum(list: seq<Order>): int
  {
    if list == [] then 0
    else (if list[0].totalPrice.None? then OrderTotals(list[0]).totalPrice else 0) + FallbackSum(list[1..])
  }

  /** Over any list, the rows' totals add up to the summary's revenue plus
      exactly the fallback totals of the orders without a stored one. */
  lemma {:induction false} RowsExceedSummaryByFallbacks(list: seq<Order>)
    ensures RowPriceSum(list) == Summarize(list).totalRevenue + FallbackSum(list)
  {
    if list != [] {
      RowsExceedSummaryByFallbacks(list[1..]);
    }
  }

  // ----- change rate -----

  /** A change rate: a fixed percentage, or the exact ratio `num / den`
      that the page turns into a one-decimal percentage. */
  datatype Change = Percent(p: int) | Ratio(num: int, den: int)

  /** Whether a change rate is above zero. This is not the cards' arrow
      test, which is `ShownUp`. */
  predicate Rising(c: Change)
  {
    match c
    case Percent(p) => p > 0
    case Ratio(num, den) => (num > 0 && den > 0) || (num < 0 && den < 0)
  }

  /** `calcChange`: against a previous value of 0 the change is 100 when
      the current value is positive and 0 otherwise; against any other
      previous value it is `(cur − prev) × 100 / prev`. */
  function CalcChange(cur: int, prev: int): (r: Change)
    ensures prev == 0 && cur > 0 ==> r == Percent(100)
    ensures prev == 0 && cur <= 0 ==> r == Percent(0)
    ensures prev != 0 ==> r.Ratio? && r.den == prev && r.num == (cur - prev) * 100
  {
    if prev == 0 then Percent(if cur > 0 then 100 else 0)
    else Ratio((cur - prev) * 100, prev)
  }

  /** For a non-negative previous value the change is positive exactly
      when the current value is larger. */
  lemma ChangeRisesIffGrowth(cur: int, prev: int)
    requires prev >= 0
    ensures Rising(CalcChange(cur, prev)) <==> cur > prev
  {
  }

  /** The text `toFixed(1)` writes for a change: an optional '-' and a
      count of tenths, so `Fixed1(true, 3)` is "-0.3". A negative value
      that rounds to zero keeps its sign and is written "-0.0". */
  datatype Fixed1 = Fixed1(negative: bool, tenths: nat)

  function Abs(x: int): nat
  {
    if x < 0 then -x else x
  }

  /** `x.toFixed(1)` of a change: the sign of `x`, and `|x|` rounded to
      the nearest tenth, a tie going to the larger magnitude. */
  function ToFixed1(c: Change): (r: Fixed1)
    requires c.Ratio? ==> c.den != 0
    ensures c.Percent? ==> (r.negative <==> c.p < 0) && r.tenths == 10 * Abs(c.p)
    ensures c.Ratio? ==> (r.negative <==> c.num != 0 && (c.num < 0 <==> c.den > 0))
    ensures c.Ratio? ==>
      2 * Abs(c.den) * r.tenths - Abs(c.den) <= 20 * Abs(c.num) < 2 * Abs(c.den) * r.tenths + Abs(c.den)
  {
    match c
    case Percent(p) => Fixed1(p < 0, 10 * Abs(p))
    case Ratio(num, den) =>
      Fixed1(num != 0 && (num < 0 <==> den > 0), RoundDiv(10 * Abs(num), Abs(den)))
  }

  /** The written text of a `Fixed1`. */
  function FixedText(f: Fixed1): (r: string)
    ensures |r| >= 3 && r[|r| - 2] == '.'
    ensures r[0] == '-' <==> f.negative
  {
    (if f.negative then "-" else "") + Text.NatToString(f.tenths / 10) + "." + [Text.DigitChar(f.tenths % 10)]
  }

  /** The cards' test `Number(change) >= 0` on the written text: the up
      arrow and the '+' sign show for every non-negative value and for
      "-0.0", which reads as −0. */
  function ShownUp(f: Fixed1): (r: bool)
    ensures !f.negative ==> r
    ensures r <==> !f.negative || f.tenths == 0
  {
    !f.negative || f.tenths == 0
  }

  /** The rate text a card shows: '+' when the arrow points up, then the
      written change and '%'. */
  function RateText(f: Fixed1): (r: string)
    ensures |r| >= 4 && r[|r| - 1] == '%'
    ensures ShownUp(f) <==> r[0] == '+'
  {
    (if ShownUp(f) then "+" else "") + FixedText(f) + "%"
  }

  /** Against a positive previous value the card's arrow points up exactly
      when `(cur − prev) / prev` is above −0.05%, that is when
      `2000 × cur > 1999 × prev`: a fall smaller than that is written
      "-0.0" and still shown as up. Against a previous value of 0 it
      always points up. */
  lemma {:induction false} ShownUpIffAboveCutoff(cur: int, prev: int)
    ensures prev > 0 ==> (ShownUp(ToFixed1(CalcChange(cur, prev))) <==> 2000 * cur > 1999 * prev)
    ensures prev == 0 ==> ShownUp(ToFixed1(CalcChange(cur, prev)))
  {
    if prev > 0 && cur < prev {
      assert Abs((cur - prev) * 100) == 100 * (prev - cur);
      RoundsToZeroIff(1000 * (prev - cur), prev);
    }
  }

  /** A non-negative quotient rounds to 0 exactly when it is below one half. */
  lemma RoundsToZeroIff(a: nat, n: int)
    requires n > 0
    ensures RoundDiv(a, n) == 0 <==> 2 * a < n
  {
    var r := RoundDiv(a, n);
    assert 2 * n * r - n <= 2 * a < 2 * n * r + n;
    ProductAwayFromZero(n, r);
  }

  /** A positive factor keeps a non-zero integer at least that far from 0. */
  lemma ProductAwayFromZero(n: int, r: int)
    requires n > 0
    ensures r >= 1 ==> n * r >= n
    ensures r <= -1 ==> n * r <= -n
  {
    if r >= 1 {
      assert n * r == n + n * (r - 1);
    } else if r <= -1 {
      assert n * r == -n + n * (r + 1);
    }
  }

  /** A fall of 2001 orders to 2000 (−0.04998%) is shown with the up
      arrow as "+-0.0%". */
  lemma SmallFallShownUp()
    ensures ToFixed1(CalcChange(2000, 2001)) == Fixed1(true, 0)
    ensures RateText(ToFixed1(CalcChange(2000, 2001))) == "+-0.0%"
  {
  }

  /** The three month-over-month cards, each change as the text
      `toFixed(1)` writes. */
  datatype MonthStatistics = MonthStatistics(
    monthRevenue: int, monthRevenueChange: Fixed1,
    monthOrderCount: int, monthOrderCountChange: Fixed1,
    monthAverageOrder: int, monthAverageOrderChange: Fixed1)

  /** The cards: this month's summary, each figure compared with last
      month's by `calcChange` and written with one decimal. */
  function Statistics(orders: seq<Order>, curStart: int, curEnd: int, lastStart: int, lastEnd: int): (r: MonthStatistics)
    ensures var cur := Summarize(FilterByRange(Some(orders), curStart, curEnd));
      var last := Summarize(FilterByRange(Some(orders), lastStart, lastEnd));
      && r.monthRevenue == cur.totalRevenue && r.monthOrderCount == cur.totalOrders
      && r.monthAverageOrder == cur.averageOrder
      && r.monthRevenueChange == ToFixed1(CalcChange(cur.totalRevenue, last.totalRevenue))
      && r.monthOrderCountChange == ToFixed1(CalcChange(cur.totalOrders, last.totalOrders))
      && r.monthAverageOrderChange == ToFixed1(CalcChange(cur.averageOrder, last.averageOrder))
    ensures var cur := Summarize(FilterByRange(Some(orders), curStart, curEnd));
      var last := Summarize(FilterByRange(Some(orders), lastStart, lastEnd));
      && (ShownUp(r.monthOrderCountChange) <==> last.totalOrders == 0 || 2000 * cur.totalOrders > 1999 * last.totalOrders)
      && (last.totalRevenue >= 0 ==>
           (ShownUp(r.monthRevenueChange) <==> last.totalRevenue == 0 || 2000 * cur.totalRevenue > 1999 * last.totalRevenue))
      && (last.averageOrder >= 0 ==>
           (ShownUp(r.monthAverageOrderChange) <==> last.averageOrder == 0 || 2000 * cur.averageOrder > 1999 * last.averageOrder))
  {
    var cur := Summarize(FilterByRange(Some(orders), curStart, curEnd));
    var last := Summarize(FilterByRange(Some(orders), lastStart, lastEnd));
    ShownUpIffAboveCutoff(cur.totalOrders, last.totalOrders);
    ShownUpIffAboveCutoff(cur.totalRevenue, last.totalRevenue);
    ShownUpIffAboveCutoff(cur.averageOrder, last.averageOrder);
    MonthStatistics(
      cur.totalRevenue, ToFixed1(CalcChange(cur.totalRevenue, last.totalRevenue)),
      cur.totalOrders, ToFixed1(CalcChange(cur.totalOrders, last.totalOrders)),
      cur.averageOrder, ToFixed1(CalcChange(cur.averageOrder, last.averageOrder)))
  }

  // ----- sorting header and expanded rows -----

  /** The sort state: a column key and a direction. */
  datatype SortConfig = SortConfig(key: string, ascending: bool)

  const InitialSort := SortConfig("orderedAt", false)

  /** `handleSort`: the current key while ascending turns descending;
      every other click sorts that key ascending. */
  function HandleSort(c: SortConfig, key: string): (r: SortConfig)
    ensures r.key == key
    ensures !r.ascending <==> c.key == key && c.ascending
  {
    SortConfig(key, !(c.key == key && c.ascending))
  }

  /** Two clicks on the current column bring its direction back, and the
      second click always flips what the first one chose. */
  lemma SortTwice(c: SortConfig, key: string)
    ensures HandleSort(HandleSort(c, key), key).ascending == !HandleSort(c, key).ascending
    ensures c.key == key ==> HandleSort(HandleSort(c, key), key) == c
  {
  }

  /** `toggleRowExpand` on the set: that id flips, every other stays. */
  function Toggled(s: set<int>, id: int): (r: set<int>)
    ensures id in r <==> id !in s
    ensures forall x :: x != id ==> (x in r <==> x in s)
  {
    if id in s then s - {id} else s + {id}
  }

  /** Toggling the same row twice restores the set. */
  lemma ToggleTwice(s: set<int>, id: int)
    ensures Toggled(Toggled(s, id), id) == s
  {
  }

  class OrderListPage {
    var orders: seq<Order>
    var editingOrder: Option<Order>
    var sortConfig: SortConfig
    var expanded: set<int>

    /** An order under edit has its line list. */
    ghost predicate Valid()
      reads this
    {
      editingOrder.Some? ==> editingOrder.value.orderProducts.Some?
    }

    constructor()
      ensures Valid()
      ensures orders == [] && editingOrder.None? && sortConfig == InitialSort && expanded == {}
    {
      orders := [];
      editingOrder := None;
      sortConfig := InitialSort;
      expanded := {};
    }

    method ToggleRowExpand(orderId: int)
      requires Valid()
      modifies this`expanded
      ensures Valid()
      ensures expanded == Toggled(old(expanded), orderId)
    {
      if orderId in expanded {
        expanded := expanded - {orderId};
      } else {
        expanded := expanded + {orderId};
      }
    }

    /** `startEditOrder`: the order becomes the one under edit and its row
        is expanded; an order without lines makes the handler fail before
        either change. */
    method StartEditOrder(order: Order)
      requires Valid()
      modifies this`editingOrder, this`expanded
      ensures Valid()
      ensures order.orderProducts.Some? ==> editingOrder == Some(order) && expanded == old(expanded) + {order.orderId}
      ensures order.orderProducts.None? ==> editingOrder == old(editingOrder) && expanded == old(expanded)
    {
      if order.orderProducts.Some? {
        editingOrder := Some(order);
        expanded := expanded + {order.orderId};
      }
    }

    /** `cancelEditOrder`: the edited order's row collapses and no order is
        under edit. */
    method CancelEditOrder()
      requires Valid()
      modifies this`editingOrder, this`expanded
      ensures Valid() && editingOrder.None?
      ensures old(editingOrder).Some? ==> expanded == old(expanded) - {old(editingOrder).value.orderId}
      ensures old(editingOrder).None? ==> expanded == old(expanded)
    {
      if editingOrder.Some? {
        expanded := expanded - {editingOrder.value.orderId};
      }
      editingOrder := None;
    }

    /** `updateOrderProductQuantity` on the order under edit. */
    method UpdateOrderProductQuantity(productId: int, newQuantity: int)
      requires Valid() && editingOrder.Some?
      modifies this`editingOrder
      ensures Valid() && editingOrder.Some?
      ensures editingOrder.value == old(editingOrder.value).(orderProducts :=
        Some(SetProductQuantity(old(editingOrder.value.orderProducts.value), productId, newQuantity)))
    {
      var o := editingOrder.value;
      editingOrder := Some(o.(orderProducts := Some(SetProductQuantity(o.orderProducts.value, productId, newQuantity))));
    }

    /** `saveOrderEdit`: the order's id and one payload line per remaining
        product line are sent; a successful update reloads the list (when
        the reload succeeds) and closes the editor, a failed one changes
        nothing. Without an order under edit nothing is sent. */
    method SaveOrderEdit(updated: bool, reloaded: Option<seq<Order>>)
      returns (request: Option<(int, seq<PayloadLine>)>)
      requires Valid()
      modifies this`editingOrder, this`orders
      ensures Valid()
      ensures old(editingOrder).None? ==> request.None? && editingOrder.None? && orders == old(orders)
      ensures old(editingOrder).Some? ==>
        request == Some((old(editingOrder).value.orderId, EditPayload(old(editingOrder).value.orderProducts.value)))
      ensures old(editingOrder).Some? && updated ==>
        editingOrder.None? && orders == (if reloaded.Some? then reloaded.value else old(orders))
      ensures old(editingOrder).Some? && !updated ==> editingOrder == old(editingOrder) && orders == old(orders)
    {
      if editingOrder.None? {
        return None;
      }
      var o := editingOrder.value;
      request := Some((o.orderId, EditPayload(o.orderProducts.value)));
      if updated {
        if reloaded.Some? {
          orders := reloaded.value;
        }
        editingOrder := None;
      }
    }

    /** A column header click. */
    method HandleSortClick(key: string)
      requires Valid()
      modifies this`sortConfig
      ensures Valid()
      ensures sortConfig == HandleSort(old(sortConfig), key)
    {
      var ascending := true;
      if sortConfig.key == key && sortConfig.ascending {
        ascending := false;
      }
      sortConfig := SortConfig(key, ascending);
    }
  }
}
