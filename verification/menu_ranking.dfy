/** The two ranking cards of the main page (`MainPopularMenu.jsx` and
    `MainUnpopularMenu.jsx`): each asks the menu-analysis API for three
    menus, turns the answer into display rows with defaults, and gives the
    first ranks coloured badges. The cards differ only in the request, the
    default subtitle, the badge table and their messages. */
module MenuRanking {
  import opened Base
  import opened Text
  import StoreApi

  /** One entry of the analysis answer. A falsy category is `None` or
      `""`; a `null` or missing sales count is `None`. */
  datatype RankedMenu = RankedMenu(menuName: string, categoryName: Option<string>, salesCount: Option<int>)

  datatype MenuRow = MenuRow(id: string, name: string, subtitle: string, sales: int)

  /** The colour class of a rank badge; `Plain` adds none. */
  datatype Badge = Plain | Gold | Silver | Bronze

  /** What a card shows once loading ends. */
  datatype Card = Shown(rows: seq<MenuRow>) | Failed(message: string)

  const PopularSubtitle := ""
  const UnpopularSubtitle := "메뉴"
  const PopularFailed := "인기 메뉴를 불러오지 못했어요."
  const UnpopularFailed := "비인기 메뉴를 불러오지 못했어요."

  /** The requests: today's top three, and this week's bottom three. */
  const PopularRequest := StoreApi.AnalysisOptions(StoreApi.Absent, StoreApi.Given("DAILY"), StoreApi.Given(3))
  const UnpopularRequest := StoreApi.AnalysisOptions(StoreApi.Absent, StoreApi.Given("WEEKLY"), StoreApi.Given(3))

  lemma RequestParams()
    ensures StoreApi.TopMenusParams(PopularRequest) == StoreApi.AnalysisParams("TOP", "DAILY", 3)
    ensures StoreApi.BottomMenusParams(UnpopularRequest) == StoreApi.AnalysisParams("BOTTOM", "WEEKLY", 3)
  {
  }

  /** The row key: the menu name, a dash and the position. */
  function RowId(menuName: string, index: nat): string
  {
    menuName + "-" + NatToString(index)
  }

  /** One entry as a row: `categoryName || default`, `salesCount ?? 0`. */
  function RowOf(it: RankedMenu, index: nat, defaultSubtitle: string): (r: MenuRow)
    ensures r.name == it.menuName && r.id == RowId(it.menuName, index)
    ensures r.subtitle == (if it.categoryName.Some? && it.categoryName.value != "" then it.categoryName.value else defaultSubtitle)
    ensures r.sales == (if it.salesCount.Some? then it.salesCount.value else 0)
  {
    MenuRow(RowId(it.menuName, index),
            it.menuName,
            match it.categoryName
            case Some(c) => if c != "" then c else defaultSubtitle
            case None => defaultSubtitle,
            it.salesCount.GetOr(0))
  }

  /** The rows of `items`, the first of which sits at position `from`. */
  function RowsFrom(items: seq<RankedMenu>, from: nat, defaultSubtitle: string): (r: seq<MenuRow>)
    ensures |r| == |items|
    ensures forall i :: 0 <= i < |items| ==> r[i] == RowOf(items[i], from + i, defaultSubtitle)
  {
    if items == [] then []
    else [RowOf(items[0], from, defaultSubtitle)] + RowsFrom(items[1..], from + 1, defaultSubtitle)
  }

  /** `(res || []).map(...)`: a `null` or missing answer is no rows. */
  function Rows(res: Option<seq<RankedMenu>>, defaultSubtitle: string): (r: seq<MenuRow>)
    ensures res.None? ==> r == []
    ensures res.Some? ==> |r| == |res.value|
    ensures res.Some? ==> forall i :: 0 <= i < |r| ==> r[i] == RowOf(res.value[i], i, defaultSubtitle)
  {
    match res
    case None => []
    case Some(items) => RowsFrom(items, 0, defaultSubtitle)
  }

  /** What a card shows: the rows, or its own failure message whatever
      the error was. */
  function Load(call: Result<Option<seq<RankedMenu>>, StoreApi.ApiFailure>, defaultSubtitle: string, failed: string): (c: Card)
    ensures call.Ok? ==> c == Shown(Rows(call.value, defaultSubtitle))
    ensures call.Err? ==> c == Failed(failed)
  {
    match call
    case Ok(res) => Shown(Rows(res, defaultSubtitle))
    case Err(_) => Failed(failed)
  }

  function PopularCard(call: Result<Option<seq<RankedMenu>>, StoreApi.ApiFailure>): (r: Card)
    ensures call.Err? ==> r == Failed(PopularFailed)
    ensures call.Ok? ==> r.Shown?
    ensures call.Ok? && call.value.None? ==> r.rows == []
    ensures call.Ok? && call.value.Some? ==>
      var items := call.value.value;
      |r.rows| == |items| &&
      forall i :: 0 <= i < |items| ==>
        && r.rows[i].name == items[i].menuName
        && r.rows[i].sales == (if items[i].salesCount.Some? then items[i].salesCount.value else 0)
        && r.rows[i].subtitle ==
             (if items[i].categoryName.Some? && items[i].categoryName.value != "" then items[i].categoryName.value
              else PopularSubtitle)
  {
    Load(call, PopularSubtitle, PopularFailed)
  }

  function UnpopularCard(call: Result<Option<seq<RankedMenu>>, StoreApi.ApiFailure>): (r: Card)
    ensures call.Err? ==> r == Failed(UnpopularFailed)
    ensures call.Ok? ==> r.Shown?
    ensures call.Ok? && call.value.None? ==> r.rows == []
    ensures call.Ok? && call.value.Some? ==>
      var items := call.value.value;
      |r.rows| == |items| &&
      forall i :: 0 <= i < |items| ==>
        && r.rows[i].name == items[i].menuName
        && r.rows[i].sales == (if items[i].salesCount.Some? then items[i].salesCount.value else 0)
        && r.rows[i].subtitle ==
             (if items[i].categoryName.Some? && items[i].categoryName.value != "" then items[i].categoryName.value
              else UnpopularSubtitle)
  {
    Load(call, UnpopularSubtitle, UnpopularFailed)
  }

  /** The cards differ only in their subtitle default: a category that is
      given is shown by both, and so is every name and sales figure. */
  lemma CardsAgreeOnData(res: seq<RankedMenu>, i: nat)
    requires i < |res|
    ensures var p, u := Rows(Some(res), PopularSubtitle)[i], Rows(Some(res), UnpopularSubtitle)[i];
      && p.id == u.id && p.name == u.name && p.sales == u.sales
      && (p.subtitle == u.subtitle <==> res[i].categoryName.Some? && res[i].categoryName.value != "")
  {
  }

  /** A text ending in a dash and digits determines those digits. */
  lemma {:induction false} DigitSuffix(a: string, d: string, b: string, e: string)
    requires AllDigits(d) && AllDigits(e)
    requires a + "-" + d == b + "-" + e
    ensures d == e
  {
    var s, t := a + "-" + d, b + "-" + e;
    assert s[|a|] == '-' && t[|b|] == '-';
    assert forall k :: |a| < k < |s| ==> s[k] == d[k - |a| - 1];
    assert forall k :: |b| < k < |t| ==> t[k] == e[k - |b| - 1];
    assert |a| == |b|;
    assert d == s[|a| + 1..] && e == t[|b| + 1..];
  }

  /** Row keys differ by position, whatever the names. */
  lemma RowIdsDistinct(n: string, m: string, i: nat, j: nat)
    requires i != j
    ensures RowId(n, i) != RowId(m, j)
  {
    if RowId(n, i) == RowId(m, j) {
      DigitSuffix(n, NatToString(i), m, NatToString(j));
      NatToStringInjective(i, j);
    }
  }

  /** So the rows of one answer have distinct keys. */
  lemma RowsHaveDistinctIds(res: Option<seq<RankedMenu>>, d: string, i: nat, j: nat)
    requires i < j < |Rows(res, d)|
    ensures Rows(res, d)[i].id != Rows(res, d)[j].id
  {
    RowIdsDistinct(res.value[i].menuName, res.value[j].menuName, i, j);
  }

  /** The popular card's badge: silver for the second rank, bronze for
      the third, none otherwise. */
  function PopularBadge(index: nat): (r: Badge)
    ensures r == Silver <==> index == 1
    ensures r == Bronze <==> index == 2
    ensures r != Gold
  {
    if index == 1 then Silver else if index == 2 then Bronze else Plain
  }

  /** The unpopular card's badge: bronze for the first rank, silver for
      the second, gold for every other. */
  function UnpopularBadge(index: nat): (r: Badge)
    ensures r == Bronze <==> index == 0
    ensures r == Silver <==> index == 1
    ensures r == Gold <==> index >= 2
  {
    if index == 0 then Bronze else if index == 1 then Silver else Gold
  }
}
