# aigoya point-of-sale front end — a Dafny model of its logic

aigoya is a React front end for a small shop. It combines a point-of-sale
screen, an order list with monthly statistics, an employee schedule, an
hourly sales chart, two menu-ranking cards, the My Page forms, a login
screen and a sales-assistant chat. Most of the code renders views or calls
a REST API. Under that rendering sits a layer of small integer, string and
list rules. This project models that layer and proves what the screens
promise about it.

One Dafny module stands for each source file:

- `Cart` holds the cart reducer shared by both POS screens. `Pos` is
  `PosMachinePage.jsx` and `PosLegacy` is the older `posMachinePage.jsx`.
- `Orders` holds the order editor and its payload, shared by
  `PosMachinePage.jsx` and `OrderList.jsx`. `OrderList` holds the list's
  filters, summaries and handlers.
- `Employees` is `EmployeePage.jsx` and `SalesChart` is `MainChart.jsx`.
- `StoreApi` and `ProductApi` are the two API files. `MenuRanking` covers
  both ranking cards.
- `ProfileEdit`, `PasswordForm`, `Login` and `Chat` are the forms and the
  chat.
- `Base` holds shared helpers (Option, Result, filter, rounding). `Text`
  models the JavaScript string built-ins the code relies on: `trim`,
  `parseInt`, `padStart`, string comparison, and `Number` on the unsigned
  decimal text the time fields hold.

Screens whose handlers replace component state are classes with one field
per state variable: `Pos.PosScreen`, `PosLegacy.LegacyPos`,
`OrderList.OrderListPage`, `Employees.EmployeeForm`,
`ProfileEdit.ProfileEditor`, `PasswordForm.PasswordEditor` and
`Chat.ChatPage`. Each handler is a method. The method states the new state
through the pure function that computes it, and lemmas about those functions
carry the properties. Loops that build an object in the source are loops
here too, with their invariants. These include the grouping loops of both
`getMenus` and the edit-table initialisers.

Some inputs come from outside the code: the current time, the weekday,
fresh ids, server responses and user confirmations. They are parameters. A
server response is either a value or an HTTP failure with an optional
status. JavaScript `NaN` is `None` wherever a value can be NaN, except in
the cart of the older POS screen. There a NaN price is recorded by the
name of its line (`nanNames`), and `CalculateTotal` turns that record into
a NaN total. Integers
are unbounded, and `Math.round` of a positive quotient is `Base.RoundDiv`,
which rounds half up.

## Model

| member | source | states |
|---|---|---|
| Cart.Bump | aigoya/src/page/PosMachinePage.jsx:202 | one more unit of a line keeps its id, name and price, and a consistent line stays consistent with its total raised by one price |
| Cart.Drop | aigoya/src/page/PosMachinePage.jsx:210 | one unit less lowers the total by one price and keeps the line consistent while the quantity stays positive |
| Cart.NewLine | aigoya/src/page/PosMachinePage.jsx:194 | a new line holds one unit and its total is the price |
| Cart.AddByName | aigoya/src/page/PosMachinePage.jsx:184-196 | a click on a name already in the cart bumps exactly the lines of that name and adds no line; a new name appends one line at the end; either way the name is in the cart and cart consistency is kept |
| Cart.BumpName | aigoya/src/page/PosMachinePage.jsx:187-191 | the lines of the clicked name gain one unit and every other line is unchanged |
| Cart.Increase | aigoya/src/page/PosMachinePage.jsx:199-205 | only lines with the id gain one unit, other lines keep value and position, and cart consistency is kept |
| Cart.Decrease | aigoya/src/page/PosMachinePage.jsx:207-213 | no line of the result has a quantity below one |
| Cart.Lowered | aigoya/src/page/PosMachinePage.jsx:208-212 | one line after a decrease is itself or dropped, never with quantity zero |
| Cart.Remove | aigoya/src/page/PosMachinePage.jsx:215-217 | the result holds no line with the id and only lines of the old cart |
| Cart.GrandTotal | aigoya/src/page/PosMachinePage.jsx:219 | with non-negative line totals the sum is non-negative and at least every line's total |
| Cart.QuantityCount | aigoya/src/page/PosMachinePage.jsx:473 | with every quantity at least one, the unit count is at least the number of lines |
| Cart.GrandTotalAppend | aigoya/src/page/PosMachinePage.jsx:219 | the total and the unit count of two carts joined are the sums of their parts |
| Cart.GrandTotalIsRevenue | aigoya/src/page/PosMachinePage.jsx:219 | when every line's total is quantity times price, the cart total is the sum of quantity times price |
| Cart.DecreaseKeepsCartOk | aigoya/src/page/PosMachinePage.jsx:207-213 | a decrease keeps every line consistent with quantity at least one and the names distinct |
| Cart.DecreaseKeepsLines | aigoya/src/page/PosMachinePage.jsx:207-213 | a decrease is exactly the map that lowers the lines with the id followed by the filter that keeps lines still above zero; so lines with other ids survive unchanged and a matching line above one survives lowered |
| Cart.DecreaseDropsLast | aigoya/src/page/PosMachinePage.jsx:210-212 | decreasing the last unit of a line removes its name from the cart |
| Cart.DecreaseOmits | aigoya/src/page/PosMachinePage.jsx:210-212 | with distinct names, a line decreased from one unit is gone |
| Cart.NamesOfDecrease | aigoya/src/page/PosMachinePage.jsx:207-213 | a decrease introduces no new name |
| Cart.RemoveKeepsCartOk | aigoya/src/page/PosMachinePage.jsx:215-217 | removal keeps the cart consistent |
| Cart.RemoveKeepsOthers | aigoya/src/page/PosMachinePage.jsx:215-217 | removal is exactly the filter keeping the lines with another id, so every such line survives, in order |
| Cart.IncreaseTotals | aigoya/src/page/PosMachinePage.jsx:199-219 | an increase adds one unit and one price per matching line to the counts and the total |
| Cart.DecreaseTotals | aigoya/src/page/PosMachinePage.jsx:207-219 | a decrease takes one unit and one price per matching line off the counts and the total |
| Cart.LoweredTotals | aigoya/src/page/PosMachinePage.jsx:208-212 | lowering one line changes its count and total by one unit and one price exactly when the id matches |
| Cart.RemoveTotals | aigoya/src/page/PosMachinePage.jsx:215-219 | removal takes exactly the removed lines' units and totals off the cart |
| Cart.BumpNameTotals | aigoya/src/page/PosMachinePage.jsx:187-191 | a merge by name adds one unit and one price per line of that name |
| Cart.ClickTotals | aigoya/src/page/PosMachinePage.jsx:184-196 | every click adds exactly one unit; the total grows by the existing line's price or, for a new name, by the clicked price |
| Cart.ClickExistingTotals | aigoya/src/page/PosMachinePage.jsx:185-191 | clicking a name already in the cart adds that line's price, whatever price the clicked item carries |
| Cart.LineStepTotals | aigoya/src/page/PosMachinePage.jsx:199-213 | with a unique id, + and − change the unit count by one and the total by that line's price |
| Orders.WithoutProduct | aigoya/src/page/PosMachinePage.jsx:284-288 | the lines of other products, all of them and nothing else |
| Orders.SetProductQuantity | aigoya/src/page/PosMachinePage.jsx:283-299 | a positive quantity changes only the matching product's quantity; zero or less removes that product and keeps every other line |
| Orders.EditPayload | aigoya/src/page/PosMachinePage.jsx:304-309 | one {productId, quantity} entry per line, in order |
| Orders.SetNonPositiveQuantity | aigoya/src/page/PosMachinePage.jsx:284-288 | a removal shortens the order by exactly the number of that product's lines |
| Orders.PayloadAfterEdit | aigoya/src/page/PosMachinePage.jsx:283-309 | the saved payload after an edit carries the new quantity for the product and the old ones elsewhere, or omits the product when removed |
| Pos.Clamp0 | aigoya/src/page/PosMachinePage.jsx:329 | `Math.max(0, x)`: the least non-negative value not below x |
| Pos.AdjustedPriceText | aigoya/src/page/PosMachinePage.jsx:328-331 | the new price field is a digit string that reads back as the adjusted price |
| Pos.AdjustedPrice | aigoya/src/page/PosMachinePage.jsx:329 | the old price read with `parseInt`, 0 when unreadable, plus the step, floored at zero |
| Pos.AdjustPriceUpDown | aigoya/src/page/PosMachinePage.jsx:328-331 | a step up then the same step down returns a non-negative price to its digits |
| Pos.AdjustedEdit | aigoya/src/page/PosMachinePage.jsx:333-341 | the edited price is never negative, a missing price counts as 0, and the name and category are kept |
| Pos.FindCategoryId | aigoya/src/page/PosMachinePage.jsx:359 | the id of the first category with that name, or none exactly when no category has it |
| Pos.EditOf | aigoya/src/page/PosMachinePage.jsx:356-360 | a menu's edit row holds its name and price, and its own category id unless that is missing or zero, then the selected category's id |
| Pos.PosScreen.constructor | aigoya/src/page/PosMachinePage.jsx:22-45 | the screen starts with an empty cart, no orders, no edit and empty forms |
| Pos.PosScreen.HandleMenuClick | aigoya/src/page/PosMachinePage.jsx:184-197 | the cart becomes the merge-by-name result and stays consistent |
| Pos.PosScreen.IncreaseQuantity | aigoya/src/page/PosMachinePage.jsx:199-205 | the cart becomes the increase by id and stays consistent |
| Pos.PosScreen.DecreaseQuantity | aigoya/src/page/PosMachinePage.jsx:207-213 | the cart becomes the old cart with the lines of the id lowered and the emptied ones filtered out, and stays consistent |
| Pos.PosScreen.RemoveOrderItem | aigoya/src/page/PosMachinePage.jsx:215-217 | the cart becomes the old cart filtered to the lines with another id, and stays consistent |
| Pos.PosScreen.CalculateTotal | aigoya/src/page/PosMachinePage.jsx:219 | the total shown is the sum of quantity times price |
| Pos.PosScreen.HandlePayment | aigoya/src/page/PosMachinePage.jsx:221-236 | an empty cart is refused before any request; otherwise the request carries the cart, and a successful payment empties the cart while a failed one keeps it |
| Pos.PosScreen.StartEditOrder | aigoya/src/page/PosMachinePage.jsx:272-277 | an order with products becomes the one being edited; one without changes nothing |
| Pos.PosScreen.CancelEditOrder | aigoya/src/page/PosMachinePage.jsx:279-281 | no order is being edited afterwards |
| Pos.PosScreen.UpdateOrderProductQuantity | aigoya/src/page/PosMachinePage.jsx:283-299 | the edited order's products become the quantity update |
| Pos.PosScreen.SaveOrderEdit | aigoya/src/page/PosMachinePage.jsx:301-320 | saving sends the order id with its payload; success closes the editor and reloads the list, failure keeps both |
| Pos.PosScreen.AdjustPrice | aigoya/src/page/PosMachinePage.jsx:328-331 | the new-menu price field becomes the clamped adjusted price |
| Pos.PosScreen.AdjustEditPrice | aigoya/src/page/PosMachinePage.jsx:333-341 | only that item's edit row changes, to the clamped adjusted price |
| Pos.PosScreen.TypeEditPrice | aigoya/src/page/PosMachinePage.jsx:662-665 | typing sets only that item's price, to the parsed number or 0 |
| Pos.PosScreen.InitializeEditCategories | aigoya/src/page/PosMachinePage.jsx:343-349 | the table maps exactly the category ids, each to the last name seen with it |
| Pos.PosScreen.InitializeEditMenus | aigoya/src/page/PosMachinePage.jsx:351-364 | the table holds exactly the named menus of the selected category, each with its edit row |
| PosLegacy.InitialMenu | aigoya/src/page/posMachinePage.jsx:24-43 | the catalogue has the five categories; '밥류' holds eleven priced menus with ids 1..11 and an empty twelfth slot, and the others are empty |
| PosLegacy.PriceValue | aigoya/src/page/posMachinePage.jsx:60-67 | a number price is charged as it is; `null` and NaN leave 0 in the line, NaN being recorded apart |
| PosLegacy.PriceDown | aigoya/src/page/posMachinePage.jsx:325 | −100 floors at zero, a missing price becomes 0 and NaN stays NaN |
| PosLegacy.PriceUp | aigoya/src/page/posMachinePage.jsx:349 | +100 adds exactly 100, a missing price becomes 100 and NaN stays NaN |
| PosLegacy.PriceUpDown | aigoya/src/page/posMachinePage.jsx:320-352 | +100 then −100 restores a non-negative price |
| PosLegacy.TypedPrice | aigoya/src/page/posMachinePage.jsx:338 | a typed price is the `parseInt` value, or 0 when it does not parse |
| PosLegacy.ParsedPrice | aigoya/src/page/posMachinePage.jsx:105 | a new menu's price is the `parseInt` value, NaN when it does not parse |
| PosLegacy.MapPrice | aigoya/src/page/posMachinePage.jsx:323-327 | only the items with that id get the new price, and order and length are kept |
| PosLegacy.EditorUpDown | aigoya/src/page/posMachinePage.jsx:321-352 | +100 then −100 on one item restores the whole category list |
| PosLegacy.WithoutMenu | aigoya/src/page/posMachinePage.jsx:117 | the category becomes its filter to the items with another id: exactly those remain, in order |
| PosLegacy.LegacyPos.constructor | aigoya/src/page/posMachinePage.jsx:5-43 | the screen starts on '밥류' with the initial catalogue and an empty cart and form |
| PosLegacy.LegacyPos.SelectCategory | aigoya/src/page/posMachinePage.jsx:136 | the shown category becomes the chosen one |
| PosLegacy.LegacyPos.HandleMenuClick | aigoya/src/page/posMachinePage.jsx:50-69 | an empty slot leaves the cart unchanged; any other item merges by name, with the fresh id for a new line; a new line with a NaN price is recorded as NaN, so the cart then holds a NaN line, and a re-added name with a number price is no longer NaN |
| PosLegacy.LegacyPos.IncreaseQuantity | aigoya/src/page/posMachinePage.jsx:73-79 | the cart becomes the increase by id and stays consistent |
| PosLegacy.LegacyPos.DecreaseQuantity | aigoya/src/page/posMachinePage.jsx:82-88 | the cart becomes the old cart with the lines of the id lowered and the emptied ones filtered out, and stays consistent |
| PosLegacy.LegacyPos.RemoveOrderItem | aigoya/src/page/posMachinePage.jsx:91-93 | the cart becomes the old cart filtered to the lines with another id, and stays consistent |
| PosLegacy.LegacyPos.CalculateTotal | aigoya/src/page/posMachinePage.jsx:45-47 | the total is NaN exactly when some line of the cart has a NaN price; otherwise it is the sum of quantity times price |
| PosLegacy.LegacyPos.EditNewMenu | aigoya/src/page/posMachinePage.jsx:252-286 | the add form takes the typed name, price and category |
| PosLegacy.LegacyPos.HandleAddMenu | aigoya/src/page/posMachinePage.jsx:96-112 | with a name or price missing nothing changes; otherwise only the chosen category gains the new item at its end and the form resets to '밥류' |
| PosLegacy.LegacyPos.HandleDeleteMenu | aigoya/src/page/posMachinePage.jsx:115-119 | only that category changes, and it becomes its filter to the items with another id |
| PosLegacy.LegacyPos.AdjustPrice | aigoya/src/page/posMachinePage.jsx:122-126 | the price field becomes max(0, parsed price + step), with an unparsable price read as 0 |
| PosLegacy.LegacyPos.PriceDownClick | aigoya/src/page/posMachinePage.jsx:321-327 | only that item of the shown category takes the −100 price |
| PosLegacy.LegacyPos.PriceUpClick | aigoya/src/page/posMachinePage.jsx:345-351 | only that item of the shown category takes the +100 price |
| PosLegacy.LegacyPos.PriceTyped | aigoya/src/page/posMachinePage.jsx:334-340 | only that item of the shown category takes the typed price |
| OrderList.FilterByRange | aigoya/src/page/OrderList.jsx:50-57 | exactly the orders with start ≤ time ≤ end are kept, from the list only; a missing list gives none |
| OrderList.DisjointRanges | aigoya/src/page/OrderList.jsx:273-278 | last month's and this month's selections share no order when the ranges do not overlap |
| OrderList.QuantitySum | aigoya/src/page/OrderList.jsx:71-73 | an order's item count is defined exactly when every product has a quantity |
| OrderList.Summarize | aigoya/src/page/OrderList.jsx:68-76 | count, revenue and items are the list's length and sums; the average is 0 for none, else revenue/count rounded to the nearest integer |
| OrderList.SummaryAppend | aigoya/src/page/OrderList.jsx:68-76 | the summary of two lists joined adds up the summaries of each |
| OrderList.OrderTotals | aigoya/src/page/OrderList.jsx:79-91 | a row shows the stored total when present, otherwise the sum of price times quantity over its products |
| OrderList.RowsAgreeWithSummary | aigoya/src/page/OrderList.jsx:68-91 | the rows' quantities add up to the summary's items, and their totals to its revenue when every order stores a total |
| OrderList.RowFallbackNotInSummary | aigoya/src/page/OrderList.jsx:69-88 | an order with products but no stored total shows the sum of its products in its row and adds 0 to the summary revenue |
| OrderList.RowsExceedSummaryByFallbacks | aigoya/src/page/OrderList.jsx:69-88 | over any list the row totals add up to the summary revenue plus the fallback totals of the orders without a stored total |
| OrderList.CalcChange | aigoya/src/page/OrderList.jsx:284-287 | with no previous value the change is 100 when the current value is positive and 0 otherwise |
| OrderList.ChangeRisesIffGrowth | aigoya/src/page/OrderList.jsx:284-287 | for a non-negative previous value the change is positive exactly when the value grew |
| OrderList.ToFixed1 | aigoya/src/page/OrderList.jsx:304-312 | `toFixed(1)` of a change: the sign of the value, kept even when it rounds to zero, and its magnitude rounded to the nearest tenth with ties going up |
| OrderList.FixedText | aigoya/src/page/OrderList.jsx:304-312 | the written one-decimal text: it ends in '.' and one digit, and starts with '-' exactly for a negative value |
| OrderList.ShownUp | aigoya/src/page/OrderList.jsx:340-343 | `Number(text) >= 0`: true for every non-negative text and for "-0.0" |
| OrderList.RateText | aigoya/src/page/OrderList.jsx:343 | the shown rate starts with '+' exactly when the arrow points up, and ends in '%' |
| OrderList.ShownUpIffAboveCutoff | aigoya/src/page/OrderList.jsx:340-343 | against a positive previous value the arrow points up exactly when `2000 × cur > 1999 × prev`, so a fall under 0.05% written "-0.0" still shows up; against 0 it always shows up |
| OrderList.SmallFallShownUp | aigoya/src/page/OrderList.jsx:361-364 | 2001 orders falling to 2000 are shown as "+-0.0%" with the up arrow |
| OrderList.Statistics | aigoya/src/page/OrderList.jsx:273-312 | the month's figures are this month's summary; each of the three changes is `toFixed(1)` of `calcChange` against last month; and each card's arrow points up exactly when last month's figure was 0 or `2000 × cur > 1999 × last` (for revenue and average, when last month's figure is non-negative) |
| OrderList.HandleSort | aigoya/src/page/OrderList.jsx:204-210 | the chosen key becomes the key, and the order is descending exactly when that key was already ascending |
| OrderList.SortTwice | aigoya/src/page/OrderList.jsx:204-210 | a second click on a key flips the direction; on the current key two clicks restore the setting |
| OrderList.Toggled | aigoya/src/page/OrderList.jsx:25-32 | only that id's membership flips |
| OrderList.ToggleTwice | aigoya/src/page/OrderList.jsx:25-32 | toggling twice restores the expanded set |
| OrderList.OrderListPage.constructor | aigoya/src/page/OrderList.jsx:13-22 | the page starts with no orders, no edit, the initial sort and nothing expanded |
| OrderList.OrderListPage.ToggleRowExpand | aigoya/src/page/OrderList.jsx:25-32 | the expanded set becomes the toggled set |
| OrderList.OrderListPage.StartEditOrder | aigoya/src/page/OrderList.jsx:129-141 | an order with products becomes the edited one and its row is expanded |
| OrderList.OrderListPage.CancelEditOrder | aigoya/src/page/OrderList.jsx:143-150 | the editor closes and the edited order's row collapses |
| OrderList.OrderListPage.UpdateOrderProductQuantity | aigoya/src/page/OrderList.jsx:153-170 | the edited order's products become the quantity update |
| OrderList.OrderListPage.SaveOrderEdit | aigoya/src/page/OrderList.jsx:172-190 | saving sends the order id with its payload; success closes the editor and reloads, failure keeps both |
| OrderList.OrderListPage.HandleSortClick | aigoya/src/page/OrderList.jsx:204-210 | the sort setting becomes the clicked one |
| Employees.DaysOfWeekShape | aigoya/src/page/EmployeePage.jsx:6-14 | seven days with distinct keys, numbered 1 to 7 in order |
| Employees.DigitsOnly | aigoya/src/page/EmployeePage.jsx:29 | the digits of the input in their order (the filter by digit), so digit input is kept and the result is empty exactly when the input had none |
| Employees.SanitizedShape | aigoya/src/page/EmployeePage.jsx:28-39 | a sanitised field has at most two digits and never exceeds the cap |
| Employees.SanitizedKeeps | aigoya/src/page/EmployeePage.jsx:28-39 | a typed field keeps its first two digits when they do not exceed the cap and otherwise becomes the cap in two digits; its value is the smaller of the two |
| Employees.SanitizedCapsNinetyNine | aigoya/src/page/EmployeePage.jsx:28-57 | typing "99" leaves "23" in the hour field and "59" in the minute field |
| Employees.SanitizedIdempotent | aigoya/src/page/EmployeePage.jsx:28-39 | sanitising a sanitised field changes nothing |
| Employees.SanitizeField | aigoya/src/page/EmployeePage.jsx:28-39 | the loop of the input handler computes the sanitised field |
| Employees.PartsOfJoin | aigoya/src/page/EmployeePage.jsx:18 | splitting "h:m" at the colon gives back both halves |
| Employees.HourInput | aigoya/src/page/EmployeePage.jsx:28-43 | typing an hour sets exactly the text `Sanitized(typed, 23) + ":" + MinutePart(value)`: the sanitised hour, capped at 23, and the old minute half, so any field after a second ':' is dropped |
| Employees.MinuteInput | aigoya/src/page/EmployeePage.jsx:46-61 | typing minutes sets exactly the text `HourPart(value) + ":" + Sanitized(typed, 59)`: the old hour half and the sanitised minutes, capped at 59, so any field after a second ':' is dropped |
| Employees.SelectHour | aigoya/src/page/EmployeePage.jsx:64-68 | a picked hour made of digits becomes the hour part, and the minute part is kept |
| Employees.SelectMinute | aigoya/src/page/EmployeePage.jsx:70-74 | a picked minute made of digits becomes the minute part, and the hour part is kept |
| Employees.PaddedOnBlur | aigoya/src/page/EmployeePage.jsx:80 | an empty field is left alone and a one-character field gains a leading '0' |
| Employees.HourBlur | aigoya/src/page/EmployeePage.jsx:77-84 | an empty hour leaves the value unchanged |
| Employees.MinuteBlur | aigoya/src/page/EmployeePage.jsx:86-93 | empty minutes leave the value unchanged |
| Employees.HourBlurPads | aigoya/src/page/EmployeePage.jsx:77-84 | blurring pads a typed hour to two digits with the same value, keeps the minutes, and a second blur changes nothing |
| Employees.MinuteBlurPads | aigoya/src/page/EmployeePage.jsx:86-93 | blurring pads a typed minute to two digits with the same value, keeps the hour, and a second blur changes nothing |
| Employees.HourOptions | aigoya/src/page/EmployeePage.jsx:24 | the hour drop-down has 24 entries |
| Employees.MinuteOptions | aigoya/src/page/EmployeePage.jsx:25 | the minute drop-down has 12 entries |
| Employees.OptionsAreSanitized | aigoya/src/page/EmployeePage.jsx:24-25 | the drop-downs offer exactly 00..23 and 00, 05, …, 55, two digits each, and each passes the input rule unchanged |
| Employees.FindDayNum | aigoya/src/page/EmployeePage.jsx:225 | the number of a day key, absent exactly when no day has that key |
| Employees.TodayNum | aigoya/src/page/EmployeePage.jsx:218 | Sunday becomes 7 and the other weekdays keep their number |
| Employees.DayKeysMatchNumbers | aigoya/src/page/EmployeePage.jsx:6-14 | a key has number n exactly when it is the n-th day's key |
| Employees.WorksTodayIff | aigoya/src/page/EmployeePage.jsx:260-265 | an employee works today exactly when today's key is among their work days ('SUNDAY' on day 0) |
| Employees.TodayWorkers | aigoya/src/page/EmployeePage.jsx:260-266 | exactly the employees who work today, taken from the list |
| Employees.WorksOn | aigoya/src/page/EmployeePage.jsx:225 | only day numbers 1 to 7 can match a work day |
| Employees.CurrentWorkers | aigoya/src/page/EmployeePage.jsx:216-229 | the number of employees on shift (the filter by `OnShift`), never more than today's workers |
| Employees.CurrentWorkersSnoc | aigoya/src/page/EmployeePage.jsx:224-228 | no employees give 0, and one more employee adds one exactly when on shift, so the figure counts the employees on shift |
| Employees.CurrentAmongToday | aigoya/src/page/EmployeePage.jsx:216-229 | the current-shift filter keeps no more than today's filter |
| Employees.LexLeTwoDigits | aigoya/src/page/EmployeePage.jsx:222-227 | comparing zero-padded two-digit prefixes as text compares their values |
| Employees.TimeTextOrder | aigoya/src/page/EmployeePage.jsx:222-227 | comparing "HH:MM" texts agrees with comparing minutes since midnight |
| Employees.TimeTextShape | aigoya/src/page/EmployeePage.jsx:222 | hours and minutes below 100 are written "HH:MM", two digits on each side of the colon |
| Employees.OnShift | aigoya/src/page/EmployeePage.jsx:224-227 | on shift only when working today; a worker whose start text is the current time text or a prefix of it, and whose end text is it or extends it, is on shift: both bounds are inclusive |
| Employees.OnShiftByMinutes | aigoya/src/page/EmployeePage.jsx:222-227 | with padded shift times, an employee is current exactly when they work today and now lies within the shift in minutes |
| Employees.DailyHours | aigoya/src/page/EmployeePage.jsx:249-257 | defined exactly when both times read as numbers, and then the minutes between them over 60 with no wrap past midnight |
| Employees.MinutesOf | aigoya/src/page/EmployeePage.jsx:250-254 | a time without a colon has no minutes (NaN), and minutes that are found are never negative |
| Employees.MinutesOfParts | aigoya/src/page/EmployeePage.jsx:249-255 | a time's minutes are 60 × hour + minute when both halves read as numbers |
| Employees.MinutesOfTimeText | aigoya/src/page/EmployeePage.jsx:249-255 | a padded "HH:MM" reads back as its minutes since midnight |
| Employees.WeeksInMonth | aigoya/src/page/EmployeePage.jsx:241 | `Math.ceil(days / 7)`: the fewest weeks covering the month |
| Employees.SumCosts | aigoya/src/page/EmployeePage.jsx:238-245 | the running sum is defined exactly when every cost is (a NaN spoils it) |
| Employees.Costs | aigoya/src/page/EmployeePage.jsx:238-245 | one cost per employee |
| Employees.CostsAppend | aigoya/src/page/EmployeePage.jsx:238-245 | the costs of two lists joined are the two cost lists joined |
| Employees.LaborCostDefined | aigoya/src/page/EmployeePage.jsx:232-246 | the monthly cost is a number exactly when every employee's daily hours are |
| Employees.SumCostsAppend | aigoya/src/page/EmployeePage.jsx:238-245 | summing a joined list adds the two sums |
| Employees.LaborCostAppend | aigoya/src/page/EmployeePage.jsx:232-246 | the monthly cost of two groups is the sum of their costs |
| Employees.EmployeeCost | aigoya/src/page/EmployeePage.jsx:238-244 | one employee's month is a number exactly when the daily hours are; it is 0 without work days or weeks and never negative for a non-negative wage and non-negative hours |
| Employees.MonthCost | aigoya/src/page/EmployeePage.jsx:242-244 | days × weeks × hours × wage is 0 without days or weeks and never negative for non-negative hours and wage |
| Employees.MonthlyLaborCost | aigoya/src/page/EmployeePage.jsx:232-246 | no employees cost 0, and a single employee costs exactly that employee's month |
| Employees.SumCostsNonNegative | aigoya/src/page/EmployeePage.jsx:238-245 | a sum of non-negative costs is non-negative |
| Employees.LaborCostNonNegative | aigoya/src/page/EmployeePage.jsx:232-246 | with non-negative wages and shifts, the monthly cost is a non-negative number |
| Employees.ToggledDays | aigoya/src/page/EmployeePage.jsx:343-350 | a listed day is removed and nothing else changes; an unlisted day is appended |
| Employees.FilterKeepsNoDuplicates | aigoya/src/page/EmployeePage.jsx:345-346 | removing a day keeps the list free of duplicates |
| Employees.AppendKeepsNoDuplicates | aigoya/src/page/EmployeePage.jsx:343-350 | appending an absent day keeps the list free of duplicates |
| Employees.ToggleAbsentTwice | aigoya/src/page/EmployeePage.jsx:343-350 | adding a day and then removing it gives the original list back |
| Employees.ToggleDayTwice | aigoya/src/page/EmployeePage.jsx:343-350 | toggling never creates duplicates; twice restores a list without the day exactly, and one with it as a set, with the day moved to the end |
| Employees.EmployeeForm.constructor | aigoya/src/page/EmployeePage.jsx:184-191 | the form starts with empty fields and no work days |
| Employees.EmployeeForm.HandleWorkDayChange | aigoya/src/page/EmployeePage.jsx:343-350 | the work days become the toggled list |
| Employees.EmployeeForm.SetWorkStartTime | aigoya/src/page/EmployeePage.jsx:505 | the start time becomes the selector's value |
| Employees.EmployeeForm.SetWorkEndTime | aigoya/src/page/EmployeePage.jsx:516 | the end time becomes the selector's value |
| SalesChart.HourIgnoresMinutes | aigoya/src/component/MainChart.jsx:33-38 | only the hour half of a bound counts; the minutes never matter |
| SalesChart.ParseHourInclusive | aigoya/src/component/MainChart.jsx:33-38 | a bound without a colon reads as a whole `Number`; an hour that is found is never negative |
| SalesChart.ParseHourOfTwoDigits | aigoya/src/component/MainChart.jsx:33-38 | a two-digit hour bound reads as that hour |
| SalesChart.DefaultStartHour | aigoya/src/component/MainChart.jsx:12 | the default start bound '00:00' is hour 0 |
| SalesChart.DefaultEndHour | aigoya/src/component/MainChart.jsx:13 | the default end bound '23:59' is hour 23 |
| SalesChart.ConvertUTCtoKST | aigoya/src/component/MainChart.jsx:44-47 | the result is 9 hours later modulo 24, with JavaScript's sign for negative hours |
| SalesChart.KstOfDayHour | aigoya/src/component/MainChart.jsx:44-47 | for a UTC hour in 0..23 the KST hour is in 0..23: +9 before 15h, −15 from then on |
| SalesChart.HourOf | aigoya/src/component/MainChart.jsx:52-68 | no hour exactly when the item has neither time; the local hour of `orderedAt` wins; a UTC hour of at least -9 gives a KST hour in 0..23 |
| SalesChart.InWindow | aigoya/src/component/MainChart.jsx:71-74 | with start ≤ end an hour is kept exactly when start ≤ h ≤ end, otherwise exactly when h ≥ start or h ≤ end; a NaN bound fails its own comparisons |
| SalesChart.WindowInOrder | aigoya/src/component/MainChart.jsx:71-73 | with start ≤ end, an hour is kept exactly when start ≤ h ≤ end |
| SalesChart.WindowWraps | aigoya/src/component/MainChart.jsx:74 | with start > end, an hour is kept exactly when h ≥ start or h ≤ end |
| SalesChart.Kept | aigoya/src/component/MainChart.jsx:52-75 | exactly the items with an hour inside the window are kept; items with no time are dropped |
| SalesChart.Timed | aigoya/src/component/MainChart.jsx:55-68 | exactly the items that carry a time |
| SalesChart.DefaultWindowKeepsTimed | aigoya/src/component/MainChart.jsx:52-75 | the default window keeps every item that has an hour |
| SalesChart.KeptAllDay | aigoya/src/component/MainChart.jsx:71-73 | the window 0..23 keeps every item that has an hour |
| SalesChart.InsertByHour | aigoya/src/component/MainChart.jsx:77-94 | inserting one item keeps exactly the same items plus that one |
| SalesChart.InsertKeepsSorted | aigoya/src/component/MainChart.jsx:77-94 | inserting into an hour-sorted list keeps it sorted |
| SalesChart.SortByHour | aigoya/src/component/MainChart.jsx:77-94 | the sorted list is a permutation of the kept items |
| SalesChart.SortIsSorted | aigoya/src/component/MainChart.jsx:77-94 | the sorted list is ascending by hour |
| SalesChart.LabelOfHour | aigoya/src/component/MainChart.jsx:101-104 | a label is the two-digit hour followed by ':00' |
| SalesChart.Label | aigoya/src/component/MainChart.jsx:99-105 | an hour below 100 labels as its two digits followed by ":00" |
| SalesChart.LabelReadsBack | aigoya/src/component/MainChart.jsx:99-105 | a label reads back as its hour |
| SalesChart.Rows | aigoya/src/component/MainChart.jsx:95-114 | one row per item, with its label, sales and original hour |
| SalesChart.SalesData | aigoya/src/component/MainChart.jsx:49-115 | one row per kept item |
| SalesChart.SalesDataInOrder | aigoya/src/component/MainChart.jsx:77-114 | the chart's rows are in ascending hour order |
| SalesChart.AverageSales | aigoya/src/component/MainChart.jsx:214-217 | 0 without rows, else the total over the count rounded to the nearest integer |
| SalesChart.TotalSales | aigoya/src/component/MainChart.jsx:210-213 | with non-negative sales the total is non-negative |
| SalesChart.MaxSales | aigoya/src/component/MainChart.jsx:218-220 | 0 without rows, else the largest sales figure, attained by some row |
| SalesChart.TotalAtMostMax | aigoya/src/component/MainChart.jsx:210-220 | the total never exceeds the count times the maximum |
| SalesChart.AverageAtMostMax | aigoya/src/component/MainChart.jsx:210-220 | the average shown never exceeds the maximum shown |
| StoreApi.BucketKey | aigoya/src/api/StoreApi.js:170 | a product's bucket is its category name when truthy, otherwise '기타' |
| StoreApi.BucketIsFilterMap | aigoya/src/api/StoreApi.js:167-182 | a bucket is the products with that bucket key, in response order, mapped to menu entries |
| StoreApi.Entry | aigoya/src/api/StoreApi.js:176-181 | productId, productName and category.id become id, name and categoryId; the price is kept |
| StoreApi.BucketSnoc | aigoya/src/api/StoreApi.js:172-181 | one more product extends its own bucket by its entry and no other bucket |
| StoreApi.GroupMenus | aigoya/src/api/StoreApi.js:150-190 | a non-array body is rejected; the call also rejects exactly when some product's bucket name is a property every `{}` inherits from `Object.prototype` (the `push` throws); otherwise the buckets are exactly the keys of the products, each holding its products' entries in response order |
| StoreApi.KeysSnoc | aigoya/src/api/StoreApi.js:172-174 | one more product adds its own key and no other |
| StoreApi.GroupStep | aigoya/src/api/StoreApi.js:167-182 | one pass of the grouping loop keeps the grouping of the products seen so far |
| StoreApi.BucketNonEmptyIffKey | aigoya/src/api/StoreApi.js:165-174 | a bucket exists exactly when some product maps to it |
| StoreApi.TotalItems | aigoya/src/api/StoreApi.js:167-182 | all the buckets together hold as many entries as the response has products |
| StoreApi.CreateOrderRequest | aigoya/src/api/StoreApi.js:283-291 | one {productId, quantity} per cart line, in cart order, stamped with the given time |
| StoreApi.OrderedQuantityIsCartCount | aigoya/src/api/StoreApi.js:283-286 | the units ordered equal the cart's unit count |
| StoreApi.PasswordUserMessage | aigoya/src/api/StoreApi.js:126-137 | a message exactly for statuses 400, 403, 404, 409 and 422 |
| StoreApi.ChangeMyPassword | aigoya/src/api/StoreApi.js:112-145 | an empty password fails before any request; otherwise the request is sent, and its failure carries the status and the status message |
| StoreApi.OrDefault | aigoya/src/api/StoreApi.js:454-456 | a destructuring default applies exactly when the option is absent |
| StoreApi.MenuAnalysisParams | aigoya/src/api/StoreApi.js:453-461 | the request defaults to TOP, DAILY and limit 5 |
| StoreApi.PresetKind | aigoya/src/api/StoreApi.js:485-489 | the preset type is used only when the caller's options have none, and period and limit pass through |
| StoreApi.TopMenusParams | aigoya/src/api/StoreApi.js:485-486 | the request asks for TOP unless the caller names a type, with the usual period and limit defaults |
| StoreApi.BottomMenusParams | aigoya/src/api/StoreApi.js:488-489 | the request asks for BOTTOM when the caller gives no type key, for the caller's type when one is given, and for TOP when the key is present but undefined; period and limit keep their defaults |
| StoreApi.AnalysisUserMessage | aigoya/src/api/StoreApi.js:465-476 | a message exactly for 400, 401, 403, 404 and any status of 500 or more |
| StoreApi.MenuAnalysis | aigoya/src/api/StoreApi.js:453-484 | the data on success; on failure the status and its message |
| ProductApi.PlainOf | aigoya/src/api/productManagementApi.js:83-87 | an entry is {id, name, price} from productId, productName and price |
| ProductApi.PlainEntries | aigoya/src/api/productManagementApi.js:80-88 | one entry per product, in response order |
| ProductApi.GroupMenus | aigoya/src/api/productManagementApi.js:52-102 | a non-array body is rejected; otherwise the result has exactly the five categories, '밥류' holds every product in order, and the other four are empty |
| ProductApi.AddMenuRequest | aigoya/src/api/productManagementApi.js:109-112 | the product collection is POSTed with the menu's name and price only |
| ProductApi.UpdateMenuRequest | aigoya/src/api/productManagementApi.js:127-130 | the product's own path gets a PUT with the menu's name and price only |
| ProductApi.MenuRequestsAgree | aigoya/src/api/productManagementApi.js:109-130 | adding and updating send the same body for the same data, and the update path names the product |
| MenuRanking.RequestParams | aigoya/src/component/MainUnpopularMenu.jsx:13 | the unpopular card asks for the weekly bottom three, the popular card for the daily top three |
| MenuRanking.RowOf | aigoya/src/component/MainPopularMenu.jsx:16-21 | a row keys the name by its index, shows a falsy category as the card's default and a null or missing sales count as 0 |
| MenuRanking.RowsFrom | aigoya/src/component/MainPopularMenu.jsx:16-21 | one row per entry, in order, indexed by position |
| MenuRanking.Rows | aigoya/src/component/MainPopularMenu.jsx:16-21 | a null answer gives no rows, otherwise one row per entry in order |
| MenuRanking.Load | aigoya/src/component/MainPopularMenu.jsx:12-29 | the card shows the rows on success and its own failure message on any error |
| MenuRanking.PopularCard | aigoya/src/component/MainPopularMenu.jsx:12-29 | a failed call shows the popular failure message; a successful one shows one row per entry with its name, `salesCount ?? 0` and its category or an empty subtitle |
| MenuRanking.UnpopularCard | aigoya/src/component/MainUnpopularMenu.jsx:12-29 | a failed call shows the unpopular failure message; a successful one shows one row per entry with its name, `salesCount ?? 0` and its category or the subtitle "메뉴" |
| MenuRanking.CardsAgreeOnData | aigoya/src/component/MainUnpopularMenu.jsx:19-20 | both cards show the same ids, names and sales, and the same subtitle exactly when a category is given |
| MenuRanking.DigitSuffix | aigoya/src/component/MainPopularMenu.jsx:17 | a text ending in a dash and digits determines those digits |
| MenuRanking.RowIdsDistinct | aigoya/src/component/MainPopularMenu.jsx:17 | keys at different positions differ, whatever the names |
| MenuRanking.RowsHaveDistinctIds | aigoya/src/component/MainPopularMenu.jsx:17 | the rows of one answer have distinct keys |
| MenuRanking.PopularBadge | aigoya/src/component/MainPopularMenu.jsx:49 | silver exactly at index 1, bronze exactly at index 2, never gold |
| MenuRanking.UnpopularBadge | aigoya/src/component/MainUnpopularMenu.jsx:49-55 | bronze exactly at index 0, silver exactly at index 1, gold from index 2 on |
| ProfileEdit.PhoneOfParts | aigoya/src/component/MyPageEdit.jsx:13 | every "01" + carrier digit + 3 or 4 digits + 4 digits text, with dashes, is recognised |
| ProfileEdit.PartsOfPhone | aigoya/src/component/MyPageEdit.jsx:13 | every recognised text has that shape |
| ProfileEdit.PhoneMatches | aigoya/src/component/MyPageEdit.jsx:13 | a number the pattern accepts has no white space at either end |
| ProfileEdit.IsPhoneValid | aigoya/src/component/MyPageEdit.jsx:14-15 | a blank phone is valid, and a valid phone that is not blank matches the pattern once trimmed |
| ProfileEdit.FormOf | aigoya/src/component/MyPageEdit.jsx:19-23 | the form takes the store's fields, with "" for each missing one |
| ProfileEdit.WithField | aigoya/src/component/MyPageEdit.jsx:44-47 | only the named field changes |
| ProfileEdit.Check | aigoya/src/component/MyPageEdit.jsx:53-64 | the values pass exactly when the name and address are non-empty and the phone is empty or a mobile number; what passes is the three values, and a refusal carries one of the three messages |
| ProfileEdit.Validate | aigoya/src/component/MyPageEdit.jsx:53-64 | the name is checked first, then the address, then the phone; a form passes exactly when its trimmed name and address are non-empty and its phone is valid, and what passes is the three fields trimmed |
| ProfileEdit.ValidateIdempotent | aigoya/src/component/MyPageEdit.jsx:53-64 | a saved payload passes validation again, unchanged |
| ProfileEdit.ProfileEditor.constructor | aigoya/src/component/MyPageEdit.jsx:8-12 | the editor starts with an empty form, loading, and no error |
| ProfileEdit.ProfileEditor.Load | aigoya/src/component/MyPageEdit.jsx:17-35 | the form is filled from the store and loading ends |
| ProfileEdit.ProfileEditor.LoadError | aigoya/src/component/MyPageEdit.jsx:36-40 | the error shows the failure's message or the fallback, and loading ends |
| ProfileEdit.ProfileEditor.OnChange | aigoya/src/component/MyPageEdit.jsx:44-47 | typing changes only the named field |
| ProfileEdit.ProfileEditor.PhoneBlur | aigoya/src/component/MyPageEdit.jsx:115 | leaving the phone field marks it touched |
| ProfileEdit.ProfileEditor.Submit | aigoya/src/component/MyPageEdit.jsx:49-64 | a passing form yields the trimmed payload and clears the error; a failing one shows the message of the first rule it breaks, and a phone failure marks the field touched |
| ProfileEdit.ProfileEditor.FinishSave | aigoya/src/component/MyPageEdit.jsx:66-75 | saving ends; success hands on the server's profile or the payload, failure shows its message or the fallback |
| PasswordForm.Errors | aigoya/src/component/MyPagePassword.jsx:47-77 | the current password is flagged exactly when empty; an empty new password is reported missing, a short one too short, one of 8 or more is fine; the confirmation is flagged exactly when it differs; no field is flagged exactly when the current password is given, the new one has at least 8 characters and the confirmation equals it |
| PasswordForm.BlankIsInvalid | aigoya/src/component/MyPagePassword.jsx:13 | the blank form is refused, with the current and new fields reported missing |
| PasswordForm.ValidPassesPreCheck | aigoya/src/component/MyPagePassword.jsx:22-26 | values that pass the form always reach the API's request |
| PasswordForm.FailureMessage | aigoya/src/component/MyPagePassword.jsx:31 | the error shown is the failure's message when it has one, otherwise the fallback, and never empty |
| PasswordForm.Settle | aigoya/src/component/MyPagePassword.jsx:18-33 | success sets the flag and no error; failure shows its message; never both |
| PasswordForm.AsWrittenAlwaysFails | aigoya/src/component/MyPagePassword.jsx:4 | with the import as written, every submit ends in the fallback error |
| PasswordForm.CallSucceedsWhenServerAccepts | aigoya/src/component/MyPagePassword.jsx:22-28 | with the StoreApi.js function, a valid submit the server accepts succeeds |
| PasswordForm.CallRefused | aigoya/src/component/MyPagePassword.jsx:30-31 | a refused submit shows the status table's message, or the fallback for other statuses |
| PasswordForm.PasswordEditor.constructor | aigoya/src/component/MyPagePassword.jsx:13-16 | three empty fields, no messages |
| PasswordForm.PasswordEditor.Type | aigoya/src/component/MyPagePassword.jsx:47-77 | typing changes only that field |
| PasswordForm.PasswordEditor.Submit | aigoya/src/component/MyPagePassword.jsx:18-33 | the field messages follow the rules; the handler runs exactly for valid values, clears the old outcome, shows the call's outcome, and empties the fields on success |
| Login.OnSubmit | aigoya/src/page/loginPage.jsx:22-31 | the handler always ends in an e-mail error, a password error or success |
| Login.UnknownEmail | aigoya/src/page/loginPage.jsx:23-24 | an e-mail other than the dummy one is reported, whatever the password |
| Login.WrongPasswordReported | aigoya/src/page/loginPage.jsx:25-26 | with the right e-mail, a wrong password is reported |
| Login.Press | aigoya/src/page/loginPage.jsx:75-100 | the handler is skipped exactly when a field is empty, each empty field then shows its message, and login succeeds exactly for the dummy credentials |
| Login.OneOutcome | aigoya/src/page/loginPage.jsx:23-30 | with both fields filled, exactly one of the three outcomes occurs |
| Chat.Opening | aigoya/src/page/ChatBotPage.jsx:31-37 | the transcript opens with the greeting, followed by the passed-in message exactly when there is one |
| Chat.ReplyText | aigoya/src/page/ChatBotPage.jsx:64 | the reply quotes the question whole, after a lead-in of nine characters, with a fixed closing |
| Chat.Outgoing | aigoya/src/page/ChatBotPage.jsx:74-75 | nothing is sent exactly for blank input; what is sent is non-empty and trimmed |
| Chat.SendDisabled | aigoya/src/page/ChatBotPage.jsx:176 | the button is disabled exactly for blank input, which is exactly when sending would do nothing |
| Chat.SendsOnKey | aigoya/src/page/ChatBotPage.jsx:81-86 | only Enter sends, and never with Shift held |
| Chat.ChatPage.constructor | aigoya/src/page/ChatBotPage.jsx:24-27 | empty transcript and input, no typing dots, closed list |
| Chat.ChatPage.Ask | aigoya/src/page/ChatBotPage.jsx:50-51 | the typing dots show and the question joins the queue of pending replies |
| Chat.ChatPage.Open | aigoya/src/page/ChatBotPage.jsx:30-43 | the transcript becomes the opening one, a passed-in message is asked, and every question has its reply pending |
| Chat.ChatPage.SetInput | aigoya/src/page/ChatBotPage.jsx:167 | the box holds what was typed |
| Chat.ChatPage.Send | aigoya/src/page/ChatBotPage.jsx:73-79 | blank input changes nothing; otherwise one user message with the trimmed text is appended, the box is cleared, the question is asked, and every question still has its reply |
| Chat.ChatPage.KeyDown | aigoya/src/page/ChatBotPage.jsx:81-86 | Enter without Shift sends as the button does; any other key sends nothing |
| Chat.ChatPage.Reply | aigoya/src/page/ChatBotPage.jsx:63-66 | the oldest question's answer is appended after the transcript, the dots go away, and the balance of questions and replies is kept |
| Chat.ChatPage.ToggleDropdown | aigoya/src/page/ChatBotPage.jsx:147 | the list opens when closed and closes when open |
| Chat.ChatPage.PickSuggestion | aigoya/src/page/ChatBotPage.jsx:88-91 | the suggestion goes into the box, not the transcript, and the list closes |
| Chat.SuggestionsSendable | aigoya/src/page/ChatBotPage.jsx:6-13 | every suggestion is sent as it is |
| Text.TrimEmptyIffAllSpace | aigoya/src/page/ChatBotPage.jsx:74 | `trim()` gives "" exactly for all-whitespace text |
| Text.TrimIdempotent | aigoya/src/component/MyPageEdit.jsx:60-64 | trimming twice equals trimming once |
| Text.TrimDropsSpace | aigoya/src/component/MyPageEdit.jsx:15 | `trim()` removes exactly the whitespace at both ends |
| Text.ParseIntOfIntToString | aigoya/src/page/PosMachinePage.jsx:329 | `parseInt` reads back a number written in decimal |
| Text.NatToStringInjective | aigoya/src/component/MainPopularMenu.jsx:17 | different indices print differently |
| Text.TwoDigitsValue | aigoya/src/page/EmployeePage.jsx:222 | `padStart(2, '0')` of a number below 100 is two digits reading back as that number |
| Text.Trim | aigoya/src/component/MyPageEdit.jsx:15 | the trimmed text is never longer and has no white space at either end |
| Text.TrimOfUnpadded | aigoya/src/component/MyPageEdit.jsx:60-64 | text with no white space at either end is its own trim |
| Text.ParseInt | aigoya/src/page/PosMachinePage.jsx:329 | blank text is NaN, and a digit string reads as its decimal value |
| Text.NumberOf | aigoya/src/page/EmployeePage.jsx:250 | the empty string is 0, and a number that is read is never negative |
| Text.BeforeWithoutSep | aigoya/src/component/MainChart.jsx:34 | text without the separator is its own first field |
| Text.PadStart | aigoya/src/page/EmployeePage.jsx:80 | text at least as long as the width is unchanged; shorter text gets fill characters in front up to the width, and its end is the text |
| Text.LexLe | aigoya/src/page/EmployeePage.jsx:227 | a prefix never compares greater |
| Base.RoundDiv | aigoya/src/page/OrderList.jsx:74 | `Math.round(a / n)`: the nearest integer, halves rounded up |

## Left out

- HTTP plumbing is not modelled: the axios instances, interceptors, token storage, the 401 redirects and logging. Responses are inputs.
- The canvas drawing of the sales chart is not modelled.
- Clock and time zone are parameters: "now", the weekday, the days in the month and the local hour of `orderedAt`. The month ranges, date formatting and period filters of the order list are left out.
- Floating-point percentages are left out. The general branch of `calcChange` is kept as an exact ratio (`OrderList.CalcChange`), and `toFixed(1)` rounds that exact ratio (`OrderList.ToFixed1`); the binary rounding of `(cur − prev) / prev × 100` before `toFixed` is not modelled, so a value within one unit in the last place of a tie may round the other way. `toLocaleString` is left out.
- Timers and concurrency are not modelled. The chat reply is an explicit second step, `Chat.ChatPage.Reply`. Every reply timer has the same length, so replies arrive in the order the questions were asked. The chat's `catch` branch cannot be reached and is left out.
- Dialogs (`alert`, `window.confirm`), navigation, scrolling, focus and placeholders are not modelled. Neither are the loading and empty-state texts, the `onSaved`/`onDone` callbacks or the submitting flags.
- `OrderList.jsx` sorts the displayed list in place by the sort setting and searches it with a locale-aware `toLowerCase`. Both are left out; only the setting itself (`OrderList.HandleSort`) is modelled.
- `EmployeePage.jsx` sorts `workDays` in place for display. This is not modelled, and neither are the employee create, update and delete calls.
- The browser's own e-mail validation on the login form is not modelled. Only the required-field rule is.
- SalesChart.SortByHour: stability is not stated. JavaScript's `sort` is stable, and the model's insertion sort keeps equal hours in input order, but no lemma says so.
- SalesChart.SalesData: the `Array.isArray` guard on the fetched data is left out. The items are the array.
- SalesChart.ConvertUTCtoKST: `Number(item.hour)` of a non-numeric hour (NaN) is not modelled. Hours are integers.
- MenuRanking.RowOf: a missing `menuName` (which JavaScript would print as "undefined") is not modelled. Names are strings.
- Text.TrimDropsSpace: string lengths count characters, not UTF-16 code units. This matters only for the 8-character password rule on text outside the Basic Multilingual Plane.
- Employees.DailyHours: daily hours are exact reals, not IEEE doubles.
- Text.NumberOf: covers only unsigned decimal digit strings, with white space around them. These are all the time fields supply. Signs, fractions, exponents and `0x`/`0o`/`0b` prefixes, which `Number` reads as numbers, come out as NaN here.
- PosLegacy.PriceValue: a NaN price leaves 0 in the line's `price` and `total`. The NaN itself is carried beside the cart by line name (`nanNames`), so `Revenue` and the cart lemmas see 0 for such a line. Only `CalculateTotal` reports NaN.

## Findings

| source | as written | input that shows it | evidently intended | confidence | as-written member | corrected member |
|---|---|---|---|---|---|---|
| aigoya/src/component/MyPagePassword.jsx:4 | imports `changeMyPassword` from `../api/storeApi`, and `storeApi.js` exports only `createStore`, `loginStore` and `getMyStore`. On a case-sensitive checkout, with a bundler that tolerates a missing export, the call is `undefined(...)`, whose TypeError the handler catches as a failure with no message. A bundler with `strictExportPresence` (create-react-app's) or native ES modules instead fail to build or link the page; a case-insensitive file system may resolve the import to `StoreApi.js`, which does export the function | any valid form, e.g. current "oldpass1", new and confirmation "newpass12", with a server that would accept it | the password-change function of `StoreApi.js` (lines 112-145), so an accepted change shows success | not executed | PasswordForm.AsWrittenAlwaysFails | PasswordForm.CallSucceedsWhenServerAccepts |
