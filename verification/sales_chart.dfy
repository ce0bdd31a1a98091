/** The hourly sales chart of the dashboard (`MainChart.jsx`): the hour
    window chosen with two "HH:MM" inputs, the shift of the server's UTC
    hours to Korean time, the rows that survive the window, sorted by hour
    and labelled "HH:00", and the three figures shown under the chart. */
module SalesChart {
  import opened Base
  import opened Text

  // ----- the hour window -----

  /** The window the chart opens with. */
  const DefaultStart := "00:00"
  const DefaultEnd := "23:59"

  /** `parseHourInclusive`: `Number` of the text before the first ':';
      the minutes are never read. `None` stands for `NaN`. A text without
      ':' is read whole, and an hour that reads is never negative. */
  function ParseHourInclusive(hhmm: string): (r: Option<int>)
    ensures ':' !in hhmm ==> r == NumberOf(hhmm)
    ensures r.Some? ==> r.value >= 0
  {
    BeforeWithoutSep(hhmm, ':');
    NumberOf(Before(hhmm, ':'))
  }

  /** Only the hour part of a bound matters. */
  lemma HourIgnoresMinutes(hh: string, m1: string, m2: string)
    requires ':' !in hh
    ensures ParseHourInclusive(hh + ":" + m1) == ParseHourInclusive(hh + ":" + m2) == NumberOf(hh)
  {
    FieldsOfJoin(hh, m1, ':');
    FieldsOfJoin(hh, m2, ':');
  }

  /** A zero-padded hour in front of any minutes reads as that hour. */
  lemma ParseHourOfTwoDigits(h: nat, minutes: string)
    requires h < 100
    ensures ParseHourInclusive(TwoDigits(h) + ":" + minutes) == Some(h)
  {
    TwoDigitsField(h);
    HourIgnoresMinutes(TwoDigits(h), minutes, minutes);
  }

  /** The default window runs from hour 0 ... */
  lemma DefaultStartHour()
    ensures ParseHourInclusive(DefaultStart) == Some(0)
  {
    assert DefaultStart == "00" + ":" + "00";
    HourIgnoresMinutes("00", "00", "00");
    assert AllDigits("00") && DecValue("00") == 0;
    NumberOfDigits("00");
  }

  /** ... to hour 23. */
  lemma DefaultEndHour()
    ensures ParseHourInclusive(DefaultEnd) == Some(23)
  {
    assert DefaultEnd == "23" + ":" + "59";
    HourIgnoresMinutes("23", "59", "59");
    assert AllDigits("23") && DecValue("23") == 23;
    NumberOfDigits("23");
  }

  /** `convertUTCtoKST`: `(utcHour + 9) % 24`, where JavaScript's `%`
      keeps the sign of the dividend. From hour -9 up the result is an hour
      of the day, nine hours on modulo a day. */
  function ConvertUTCtoKST(utcHour: int): (h: int)
    ensures -24 < h < 24 && (utcHour + 9 - h) % 24 == 0
    ensures utcHour >= -9 ==> 0 <= h
    ensures utcHour < -9 ==> h <= 0
  {
    var a := utcHour + 9;
    if a >= 0 then a % 24 else -((-a) % 24)
  }

  /** The shift on an hour of the day, case by case. */
  lemma KstOfDayHour(utcHour: int)
    requires 0 <= utcHour < 24
    ensures ConvertUTCtoKST(utcHour) == if utcHour < 15 then utcHour + 9 else utcHour - 15
  {
  }

  /** JavaScript's `a <= b` on numbers that may be `NaN` (`None`): false
      as soon as either side is `NaN`. */
  predicate NumLe(a: Option<int>, b: Option<int>)
  {
    a.Some? && b.Some? && a.value <= b.value
  }

  /** The hour test of the filter: both bounds inclusive, wrapping past
      midnight when the start is after the end. A `NaN` bound fails every
      comparison, so with one `NaN` bound only the other one filters, and
      with two nothing is kept. */
  function InWindow(h: int, startHour: Option<int>, endHour: Option<int>): (r: bool)
    ensures startHour.Some? && endHour.Some? && startHour.value <= endHour.value ==>
      (r <==> startHour.value <= h <= endHour.value)
    ensures startHour.Some? && endHour.Some? && startHour.value > endHour.value ==>
      (r <==> h >= startHour.value || h <= endHour.value)
    ensures startHour.None? ==> (r <==> endHour.Some? && h <= endHour.value)
    ensures endHour.None? ==> (r <==> startHour.Some? && startHour.value <= h)
  {
    if NumLe(startHour, endHour) then NumLe(startHour, Some(h)) && NumLe(Some(h), endHour)
    else NumLe(startHour, Some(h)) || NumLe(Some(h), endHour)
  }

  lemma WindowInOrder(h: int, s: int, e: int)
    requires s <= e
    ensures InWindow(h, Some(s), Some(e)) <==> s <= h <= e
  {
  }

  lemma WindowWraps(h: int, s: int, e: int)
    requires s > e
    ensures InWindow(h, Some(s), Some(e)) <==> h >= s || h <= e
  {
  }

  // ----- the rows -----

  /** One element of the response. `localHour` is the browser-local hour
      of `orderedAt` when that is set; `hour` is `Number(item.hour)` when
      `hour` is present. */
  datatype SalesItem = SalesItem(localHour: Option<int>, hour: Option<int>, totalSales: int)

  /** The hour an item is charted at: the local hour of `orderedAt`, else
      the server hour shifted to Korean time, else none. A server hour
      from -9 up lands on an hour of the day. */
  function HourOf(item: SalesItem): (r: Option<int>)
    ensures r.None? <==> item.localHour.None? && item.hour.None?
    ensures item.localHour.Some? ==> r == item.localHour
    ensures item.localHour.None? && item.hour.Some? && item.hour.value >= -9 ==> 0 <= r.value < 24
  {
    if item.localHour.Some? then item.localHour
    else if item.hour.Some? then Some(ConvertUTCtoKST(item.hour.value))
    else None
  }

  predicate Keep(item: SalesItem, startHour: Option<int>, endHour: Option<int>)
  {
    HourOf(item).Some? && InWindow(HourOf(item).value, startHour, endHour)
  }

  /** The `filter` step: the items inside the window, in response order;
      items with no time at all are dropped. */
  function Kept(items: seq<SalesItem>, startHour: Option<int>, endHour: Option<int>): (r: seq<SalesItem>)
    ensures |r| <= |items|
    ensures forall x :: x in r <==> x in items && Keep(x, startHour, endHour)
    ensures AllTimed(r)
  {
    if items == [] then []
    else (if Keep(items[0], startHour, endHour) then [items[0]] else []) + Kept(items[1..], startHour, endHour)
  }

  /** The items that carry a time. */
  function Timed(items: seq<SalesItem>): (r: seq<SalesItem>)
    ensures forall x :: x in r <==> x in items && HourOf(x).Some?
  {
    if items == [] then []
    else (if HourOf(items[0]).Some? then [items[0]] else []) + Timed(items[1..])
  }

  /** Items whose local hour is an hour of the day and whose server hour
      is not before -9 land on an hour of the day. */
  predicate DayHours(items: seq<SalesItem>)
  {
    forall i :: 0 <= i < |items| ==>
      (items[i].localHour.Some? ==> 0 <= items[i].localHour.value < 24) &&
      (items[i].hour.Some? ==> items[i].hour.value >= -9)
  }

  /** With the default window every item that carries a time is kept, in
      order. */
  lemma {:induction false} DefaultWindowKeepsTimed(items: seq<SalesItem>)
    requires DayHours(items)
    ensures Kept(items, ParseHourInclusive(DefaultStart), ParseHourInclusive(DefaultEnd)) == Timed(items)
  {
    DefaultStartHour();
    DefaultEndHour();
    KeptAllDay(items);
  }

  lemma {:induction false} KeptAllDay(items: seq<SalesItem>)
    requires DayHours(items)
    ensures Kept(items, Some(0), Some(23)) == Timed(items)
  {
    if items != [] {
      var x := items[0];
      assert Keep(x, Some(0), Some(23)) <==> HourOf(x).Some? by {
        if HourOf(x).Some? {
          assert 0 <= HourOf(x).value < 24;
        }
      }
      assert DayHours(items[1..]) by {
        forall i | 0 <= i < |items[1..]|
          ensures items[1..][i] == items[i + 1]
        {
        }
      }
      KeptAllDay(items[1..]);
    }
  }

  predicate AllTimed(xs: seq<SalesItem>)
  {
    forall i :: 0 <= i < |xs| ==> HourOf(xs[i]).Some?
  }

  predicate SortedByHour(xs: seq<SalesItem>)
    requires AllTimed(xs)
  {
    forall i, j :: 0 <= i < j < |xs| ==> HourOf(xs[i]).value <= HourOf(xs[j]).value
  }

  /** `x` placed after every element whose hour is not greater than its
      own, counting from the end. */
  function InsertByHour(xs: seq<SalesItem>, x: SalesItem): (r: seq<SalesItem>)
    requires AllTimed(xs) && HourOf(x).Some?
    ensures AllTimed(r) && multiset(r) == multiset(xs) + multiset{x}
  {
    if xs == [] || HourOf(xs[|xs| - 1]).value <= HourOf(x).value then xs + [x]
    else
      assert xs == xs[..|xs| - 1] + [xs[|xs| - 1]];
      InsertByHour(xs[..|xs| - 1], x) + [xs[|xs| - 1]]
  }

  lemma {:induction false} InsertKeepsSorted(xs: seq<SalesItem>, x: SalesItem)
    requires AllTimed(xs) && HourOf(x).Some? && SortedByHour(xs)
    ensures SortedByHour(InsertByHour(xs, x))
  {
    if xs != [] && HourOf(xs[|xs| - 1]).value > HourOf(x).value {
      var init, last := xs[..|xs| - 1], xs[|xs| - 1];
      InsertKeepsSorted(init, x);
      var r' := InsertByHour(init, x);
      forall k | 0 <= k < |r'|
        ensures HourOf(r'[k]).value <= HourOf(last).value
      {
        assert r'[k] in multiset(init) + multiset{x};
        if r'[k] != x {
          var n :| 0 <= n < |init| && init[n] == r'[k];
          assert xs[n] == init[n];
        }
      }
      assert InsertByHour(xs, x) == r' + [last];
    }
  }

  /** The `sort` step: ascending by hour, a permutation of its input. */
  function SortByHour(xs: seq<SalesItem>): (r: seq<SalesItem>)
    requires AllTimed(xs)
    ensures AllTimed(r) && multiset(r) == multiset(xs) && |r| == |xs|
  {
    if xs == [] then []
    else
      assert xs == xs[..|xs| - 1] + [xs[|xs| - 1]];
      var r := InsertByHour(SortByHour(xs[..|xs| - 1]), xs[|xs| - 1]);
      assert |multiset(r)| == |multiset(xs)|;
      r
  }

  lemma {:induction false} SortIsSorted(xs: seq<SalesItem>)
    requires AllTimed(xs)
    ensures SortedByHour(SortByHour(xs))
  {
    if xs != [] {
      SortIsSorted(xs[..|xs| - 1]);
      InsertKeepsSorted(SortByHour(xs[..|xs| - 1]), xs[|xs| - 1]);
    }
  }

  datatype ChartRow = ChartRow(time: string, sales: int, originalHour: Option<int>)

  /** `${String(h).padStart(2, '0')}:00`: an hour below 100 is written
      with exactly two digits. */
  function Label(h: int): (r: string)
    ensures 0 <= h < 100 ==> |r| == 5 && r[..2] == TwoDigits(h) && r[2..] == ":00"
  {
    assert 0 <= h < 100 ==> IntToString(h) == NatToString(h) && |TwoDigits(h)| == 2 by {
      if 0 <= h < 100 {
        TwoDigitsValue(h);
      }
    }
    PadStart(IntToString(h), 2, '0') + ":00"
  }

  /** An hour of the day is labelled with its two digits. */
  lemma LabelOfHour(h: int)
    requires 0 <= h < 24
    ensures Label(h) == TwoDigits(h) + ":00" && |Label(h)| == 5
  {
    TwoDigitsValue(h);
    assert IntToString(h) == NatToString(h);
  }

  /** The label of an hour of the day reads back as that hour. */
  lemma LabelReadsBack(h: int)
    requires 0 <= h < 24
    ensures ParseHourInclusive(Label(h)) == Some(h)
  {
    LabelOfHour(h);
    var t := TwoDigits(h);
    ParseHourOfTwoDigits(h, "00");
    assert t + ":" + "00" == t + ":00";
  }

  /** The `map` step. */
  function Rows(xs: seq<SalesItem>): (r: seq<ChartRow>)
    requires AllTimed(xs)
    ensures |r| == |xs|
    ensures forall i :: 0 <= i < |xs| ==>
      r[i].time == Label(HourOf(xs[i]).value) && r[i].sales == xs[i].totalSales && r[i].originalHour == xs[i].hour
  {
    if xs == [] then []
    else [ChartRow(Label(HourOf(xs[0]).value), xs[0].totalSales, xs[0].hour)] + Rows(xs[1..])
  }

  /** `salesData`: filter, sort, label. */
  function SalesData(items: seq<SalesItem>, startHour: Option<int>, endHour: Option<int>): (r: seq<ChartRow>)
    ensures |r| == |Kept(items, startHour, endHour)|
  {
    Rows(SortByHour(Kept(items, startHour, endHour)))
  }

  /** When every item lands on an hour of the day, the rows are labelled
      with hours that never go down. */
  lemma SalesDataInOrder(items: seq<SalesItem>, startHour: Option<int>, endHour: Option<int>, i: int, j: int)
    requires DayHours(items)
    requires 0 <= i < j < |SalesData(items, startHour, endHour)|
    ensures var r := SalesData(items, startHour, endHour);
      ParseHourInclusive(r[i].time).Some? && ParseHourInclusive(r[j].time).Some? &&
      ParseHourInclusive(r[i].time).value <= ParseHourInclusive(r[j].time).value
  {
    var kept := Kept(items, startHour, endHour);
    var s := SortByHour(kept);
    SortIsSorted(kept);
    OnDayHour(items, kept, s, i);
    OnDayHour(items, kept, s, j);
    LabelReadsBack(HourOf(s[i]).value);
    LabelReadsBack(HourOf(s[j]).value);
  }

  lemma OnDayHour(items: seq<SalesItem>, kept: seq<SalesItem>, s: seq<SalesItem>, k: int)
    requires DayHours(items) && AllTimed(kept) && AllTimed(s)
    requires forall x :: x in kept ==> x in items
    requires multiset(s) == multiset(kept) && 0 <= k < |s|
    ensures 0 <= HourOf(s[k]).value < 24
  {
    assert s[k] in multiset(kept);
    assert s[k] in kept;
    assert s[k] in items;
    var n :| 0 <= n < |items| && items[n] == s[k];
  }

  // ----- the figures under the chart -----

  /** `totalSales`: the sum of the sales figures, never negative when
      none of them is. */
  function TotalSales(rows: seq<ChartRow>): (r: int)
    ensures (forall i :: 0 <= i < |rows| ==> rows[i].sales >= 0) ==> r >= 0
  {
    if rows == [] then 0 else TotalSales(rows[..|rows| - 1]) + rows[|rows| - 1].sales
  }

  /** `averageSales`: 0 without rows, otherwise the mean rounded to the
      nearest integer. */
  function AverageSales(rows: seq<ChartRow>): (r: int)
    ensures rows == [] ==> r == 0
    ensures rows != [] ==> 2 * |rows| * r - |rows| <= 2 * TotalSales(rows) < 2 * |rows| * r + |rows|
  {
    if |rows| > 0 then RoundDiv(TotalSales(rows), |rows|) else 0
  }

  /** `maxSales`: 0 without rows, otherwise the largest sales figure. */
  function MaxSales(rows: seq<ChartRow>): (r: int)
    ensures rows == [] ==> r == 0
    ensures rows != [] ==> (exists i :: 0 <= i < |rows| && rows[i].sales == r)
    ensures forall i :: 0 <= i < |rows| ==> rows[i].sales <= r
  {
    if rows == [] then 0
    else if |rows| == 1 then rows[0].sales
    else
      var m := MaxSales(rows[..|rows| - 1]);
      if rows[|rows| - 1].sales > m then rows[|rows| - 1].sales else m
  }

  lemma {:induction false} TotalAtMostMax(rows: seq<ChartRow>)
    ensures TotalSales(rows) <= |rows| * MaxSales(rows)
  {
    if rows != [] {
      var init, n, m := rows[..|rows| - 1], |rows| - 1, MaxSales(rows);
      assert rows[n].sales <= m;
      if init != [] {
        TotalAtMostMax(init);
        assert MaxSales(init) <= m;
        assert TotalSales(rows) == TotalSales(init) + rows[n].sales;
        SumBound(n, TotalSales(init), MaxSales(init), rows[n].sales, m);
      }
    }
  }

  lemma SumBound(n: nat, total: int, mInit: int, last: int, m: int)
    requires total <= n * mInit && mInit <= m && last <= m
    ensures total + last <= (n + 1) * m
  {
    MulLeft(n, mInit, m);
  }

  lemma MulLeft(n: nat, a: int, b: int)
    requires a <= b
    ensures n * a <= n * b
  {
  }

  lemma MulLess(k: int, a: int, b: int)
    requires k > 0
    ensures a < b <==> k * a < k * b
  {
  }

  /** The average shown is never above the maximum shown. */
  lemma AverageAtMostMax(rows: seq<ChartRow>)
    ensures AverageSales(rows) <= MaxSales(rows)
  {
    if rows != [] {
      TotalAtMostMax(rows);
      RoundedMeanAtMostMax(|rows|, TotalSales(rows), AverageSales(rows), MaxSales(rows));
    }
  }

  lemma RoundedMeanAtMostMax(n: int, total: int, r: int, m: int)
    requires n > 0 && total <= n * m && 2 * n * r - n <= 2 * total
    ensures r <= m
  {
    assert 2 * n * (m + 1) == 2 * (n * m) + 2 * n;
    MulLess(2 * n, r, m + 1);
  }
}
