# Portfolio tracker core in Dafny

This project models the core of a small stock-portfolio tracker. The tracker
keeps purchase lots of shares. Each lot has a symbol, a purchase date, a
purchase price, a share count, and optionally a sell price and a sell date.

From those lots it prints an insights report with one row per symbol that has a
current price:
- shares held and the weighted average purchase price;
- the current price, gain/loss and gain/loss %;
- the +30 % sell target and the −5 % buy target;
- profit booked on sold lots.

The rows are sorted by falling gain/loss %, numbered from 1, and followed by
a portfolio totals row. Before the report, the user may patch one lot (a
blank field keeps its value) or delete one lot after confirming.

Modules:
- `Lots`: the lot record, the `StockEntry` class whose fields are updated in
  place (`set_sell_data`, the edit workflow), and the field patch.
- `Grouping`: grouping by symbol in first-appearance order, and the
  per-group sums of cost, shares and realised profit.
- `Figures`: the per-row and totals figures. Rounding to two decimals is
  exact half-to-even rounding of a real.
- `Ranking`: the stable descending sort on the rounded percentage, and the
  serial numbers.
- `Insights`: the report as functions of the lots and of the price source.
  This is the specification that the imperative code is proved against.
- `InsightEngine`: `calculate_insights` as the program runs it. It builds the
  group dictionary in a loop, sums each group in a loop, and keeps running
  totals in a loop. Each method is proved equal to the `Insights` functions.
- `Maintenance`: the `Portfolio` class holding the list of entries, with
  `Edit` (patch one lot in place) and `Delete` (`list.remove` of one lot).
- `Examples`: worked reports for concrete portfolios.

Modelling choices:
- Prices are exact reals and share counts are unbounded integers.
- The market-data lookup is a parameter of type `string -> Option<real>`.
  `None` stands for "no data".
- A lot is chosen by its symbol and by its position `k` (from 0) among that
  symbol's lots, which is the purchase-date list shown to the user.

## Model

| member | source | states |
|---|---|---|
| Lots.StockEntry.constructor | src/portfolio_tracker.py:8-14 | a new lot carries the given symbol, date, price and share count and has no sell price and no sell date |
| Lots.StockEntry.SetSellData | src/portfolio_tracker.py:16-18 | recording a sale sets the sell price and sell date and leaves the four purchase fields unchanged |
| Lots.Merge | src/portfolio_tracker.py:178-186 | field by field, a given purchase date, price or quantity replaces the old one and a blank one keeps it; the sale fields are replaced by given values only when the sell update was chosen and are kept otherwise; the symbol never changes; a blank patch gives back the lot; after a sell update the lot has a sell price |
| Lots.StockEntry.ApplyPatch | src/portfolio_tracker.py:178-186 | overwriting the fields one after another leaves the entry holding exactly the merged lot |
| Lots.MergeIdempotent | src/portfolio_tracker.py:178-186 | applying the same edit twice gives the same lot as applying it once |
| Grouping.Symbols | src/portfolio_tracker.py:35-38 | the dictionary keys hold no repeats |
| Grouping.SymbolsMembers | src/portfolio_tracker.py:35-38 | a symbol is a key exactly when some lot carries it |
| Grouping.LotsOf | src/portfolio_tracker.py:35-38 | a lot is in the group of `s` exactly when it is one of the lots and its symbol is `s` |
| Grouping.SymbolsInFirstAppearanceOrder | src/portfolio_tracker.py:35-38 | keys appear in the order in which their symbols first occur in the list of lots |
| Grouping.GroupingPartitions | src/portfolio_tracker.py:35-38 | the groups laid end to end in key order are a permutation of the lots: each lot lands in exactly one group |
| Grouping.Cost | src/portfolio_tracker.py:47-52 | defined as `total_purchase_price`: the sum of purchase price × shares over the group's lots; its properties are in the lemmas below and in `InsightEngine.SumGroup` |
| Grouping.Quantity | src/portfolio_tracker.py:48-53 | defined as `total_quantity`: the sum of the share counts of the group's lots |
| Grouping.Realised | src/portfolio_tracker.py:49-58 | defined as `cumulative_profit`: the sum of (sell price − purchase price) × shares over the sold lots only |
| Grouping.TotalSplitsBySymbol | src/portfolio_tracker.py:51-58 | summing any per-lot amount (cost, profit) group by group gives the sum over all lots |
| Grouping.QuantitySplitsBySymbol | src/portfolio_tracker.py:53 | the per-group share counts add up to the share count of all lots |
| Grouping.NoSaleNoRealisedProfit | src/portfolio_tracker.py:55-58 | a group in which no lot has a sell price has booked profit 0 |
| Figures.Round2 | src/portfolio_tracker.py:83 | the rounded percentage is a whole number of hundredths within half a hundredth of its argument, and at an exact tie it is the even hundredth |
| Figures.Average | src/portfolio_tracker.py:60 | the average times the share count is the group cost when shares are held, and the average is 0 otherwise |
| Figures.Percent | src/portfolio_tracker.py:70-83 | the percentage is 0 when the cost is 0, and otherwise within half a hundredth of gain/loss over cost times 100 |
| Figures.MakeRow | src/portfolio_tracker.py:60-87 | every column of a row: value = price × shares, gain/loss = value − cost, the guarded average and percentage, targets = average × 1.30 and × 0.95, and the price signal Above/Below exactly when the average is below/above the price |
| Figures.SumsSnoc | src/portfolio_tracker.py:65-67 | adding a row adds its cost, value and share count to the running totals |
| Figures.TotalsOf | src/portfolio_tracker.py:100-113 | the totals row holds the summed shares, investment and value, gain/loss = value − investment, and a percentage that is 0 on zero investment |
| Ranking.Insert | src/portfolio_tracker.py:92 | inserting a row adds exactly that row to the multiset of rows |
| Ranking.InsertKeepsDescending | src/portfolio_tracker.py:92 | inserting into a descending list keeps it descending |
| Ranking.InsertIsStable | src/portfolio_tracker.py:92 | insertion keeps the relative order of the rows that share any one percentage |
| Ranking.SortByPercent | src/portfolio_tracker.py:92 | the sorted rows are in non-increasing percentage order, are a permutation of the input, and keep the input order among equal percentages |
| Ranking.Rank | src/portfolio_tracker.py:95-97 | one line per row, and the line at position i is row i with serial number i + 1 |
| Ranking.RanksRunFromOne | src/portfolio_tracker.py:95-97 | serial numbers lie in 1..n and strictly increase, so they are exactly 1..n with no gaps or repeats |
| Insights.RowFor | src/portfolio_tracker.py:46-87 | defined as `MakeRow` over the cost, share count and booked profit of the symbol's whole group at its fetched price; `PricedRowContents` ties every row to it |
| Insights.PricedRows | src/portfolio_tracker.py:46-89 | defined as the rows of the listed symbols in order, a symbol without a price adding no row; its properties are the lemmas below |
| Insights.Rows | src/portfolio_tracker.py:46-89 | defined as the priced rows over the group keys, `table_data` before sorting |
| Insights.Table | src/portfolio_tracker.py:91-113 | defined as the rows sorted by falling percentage and numbered, followed by the totals row; `TableShape` states its shape |
| Insights.PricedMembers | src/portfolio_tracker.py:63 | a symbol is kept exactly when it is listed and has a price; distinct keys stay distinct |
| Insights.Unpriced | src/portfolio_tracker.py:88-89 | defined as the listed symbols without a price, in key order; `UnpricedMembers` states its properties |
| Insights.UnpricedMembers | src/portfolio_tracker.py:88-89 | the diagnostic is printed for exactly the listed symbols without a price, once each |
| Insights.PricedRowSymbols | src/portfolio_tracker.py:46-87 | the symbols of the rows, in order, are the priced symbols in key order |
| Insights.PricedRowContents | src/portfolio_tracker.py:46-87 | every row carries the fetched price of its symbol and is computed from that symbol's whole group |
| Insights.RowsAreThePricedSymbols | src/portfolio_tracker.py:46-89 | the report has one row for each symbol that has lots and a price, and none for any other symbol |
| Insights.UnpricedSymbolLeavesNoTrace | src/portfolio_tracker.py:63-67 | removing every lot of a symbol without a price changes neither the rows, nor the totals, nor the printed table |
| Insights.PricedRowsSums | src/portfolio_tracker.py:65-67 | the summed cost and shares of the rows are the group sums over the priced symbols |
| Insights.TotalsArePricedGroupSums | src/portfolio_tracker.py:65-67 | total investment and total shares are the group sums over the priced symbols only |
| Insights.AllPricedKeepsNames | src/portfolio_tracker.py:63 | when every symbol has a price, none is dropped |
| Insights.AllPricedTotalsCoverEveryLot | src/portfolio_tracker.py:65-67 | when every symbol has a price, total investment is the cost of all lots and total shares is the share count of all lots |
| Insights.SortedFromRows | src/portfolio_tracker.py:92 | sorting keeps the number of rows and every sorted row is one of the rows |
| Insights.TableShape | src/portfolio_tracker.py:92-113 | the table has n ranked lines numbered 1..n in non-increasing percentage order, each holding one of the rows, followed by the totals row |
| InsightEngine.Place | src/portfolio_tracker.py:35-38 | one step of the grouping loop: the keys become the first-appearance symbols of the lots up to position i, the map has exactly those keys, and every group holds exactly its symbol's lots among them |
| InsightEngine.GroupByName | src/portfolio_tracker.py:32-38 | the loop builds keys equal to the first-appearance symbols, the map has no other keys, and the entries under each key are exactly that symbol's lots in input order |
| InsightEngine.SumGroup | src/portfolio_tracker.py:47-58 | the inner loop leaves the group's cost, share count and profit booked on sold lots |
| InsightEngine.AddGroup | src/portfolio_tracker.py:46-89 | one step of the group loop: the row of a priced symbol is appended and its cost, value and shares join the running totals; an unpriced symbol only joins the diagnostics |
| InsightEngine.Tabulate | src/portfolio_tracker.py:46-89 | the group loop yields the priced rows in key order, the unpriced symbols in key order, and running totals equal to the sums of the rows |
| InsightEngine.Report | src/portfolio_tracker.py:91-113 | the running totals give the totals row of the rows, placed after the sorted, numbered rows |
| InsightEngine.CalculateInsights | src/portfolio_tracker.py:27-118 | the printed table, the returned investment and current value, and the diagnostics are those of the report specification |
| Maintenance.NthOf | src/portfolio_tracker.py:169-175 | the chosen entry carries the chosen symbol, exactly k lots of that symbol come before it, and it is entry k of the filtered list |
| Maintenance.FirstPosition | src/portfolio_tracker.py:217 | the position `list.remove` looks for: the element is there and occurs nowhere before it |
| Maintenance.RemoveFirst | src/portfolio_tracker.py:217 | removing a present element shortens the list by one and takes exactly one copy of that element out |
| Maintenance.RemoveFirstAt | src/portfolio_tracker.py:217 | when an element first occurs at position j, removing it cuts out exactly position j and keeps the order of the rest |
| Maintenance.DeleteKeepsOtherGroups | src/portfolio_tracker.py:216-217 | deleting a lot leaves the group of every other symbol unchanged |
| Maintenance.DeleteCutsOwnGroup | src/portfolio_tracker.py:216-217 | the deleted lot is entry k of its own group, where k counts that symbol's lots before it, and the group loses that entry only |
| Maintenance.CutAt | src/portfolio_tracker.py:217 | in a list without repeated entries, removing entry i cuts out exactly position i and lot i, and leaves no repeated entry |
| Maintenance.Portfolio.Edit | src/portfolio_tracker.py:175-186 | the chosen lot becomes its merge with the patch; the list and every other lot are unchanged |
| Maintenance.Portfolio.Cut | src/portfolio_tracker.py:217 | after the removal the list is the old list without position i, the lots are the old lots without lot i, and no entry is repeated |
| Maintenance.Portfolio.Delete | src/portfolio_tracker.py:212-221 | when confirmed, exactly the chosen lot leaves the list and the others keep their order; otherwise the list is unchanged |
| Examples.SingleLotGroup | src/portfolio_tracker.py:35-67 | one lot of AAA forms the single group AAA of 10 shares costing 1000, and its row is the only row |
| Examples.TenSharesAt120 | src/portfolio_tracker.py:60-75 | ten shares bought for 1000 and priced at 120 give average 100, value 1200, gain 200, 20.00 %, targets 130 and 95, and the Above signal |
| Examples.SingleLotRow | src/portfolio_tracker.py:60-75 | ten shares bought at 100 and priced at 120 give average 100, value 1200, gain 200, 20.00 %, targets 130 and 95 |
| Examples.TwoLotsGroup | src/portfolio_tracker.py:35-58 | two lots of one symbol form a single group of 20 shares costing 1200 |
| Examples.TwoLotsAverage | src/portfolio_tracker.py:51-60 | lots of 10 shares at 50 and at 70 give one row of 20 shares with average 60 |
| Examples.UnpricedSymbolExcluded | src/portfolio_tracker.py:63-89 | adding the lots of a symbol without a price does not change the printed table |
| Examples.UnpricedSymbolReported | src/portfolio_tracker.py:88-89 | the diagnostic is printed for the unpriced symbol only |
| Examples.NothingPricedTotals | src/portfolio_tracker.py:100-101 | for any price source that prices none of the symbols, the totals row is all zeros, including the percentage |

## Left out

- Fetching prices from market data (`get_current_price`) is a network call. It becomes the `quote` parameter.
- CSV loading, `save_stock_data`, the Excel report, and the save after a deletion are file I/O, so they are left out.
- All prompts and console output are left out, as are the entry loop ending in "done" and the yes/no gates before edit and delete. The delete confirmation is the `confirmed` parameter. The "update the sell data?" answer is `Patch.updateSell`.
- The diagnostic lines appear only as the `unpriced` result, in the order they are printed.
- Table rendering and ANSI colours are left out. The colour choice is kept as the `Signal` value.
- `report_data` is never filled, so it is always empty. `CalculateInsights` does not return it.
- Figures.Round2: the program rounds binary floating-point numbers. The model rounds the exact real half-to-even, which can differ for values whose binary form lies just off a half hundredth.
- The `int()` truncation of the displayed money columns is left out. Rows keep exact values.
- Maintenance.Portfolio.Edit and Maintenance.Portfolio.Delete: the program shows the symbols from an unordered set and selects them by number. The model takes the symbol directly. It also does not model negative or out-of-range numbers, or unparsable typed values. The chosen position must exist.
- Lots.Merge and Lots.StockEntry.ApplyPatch require `FitsOn`. The program crashes (`float(None)`) when sell data is updated on a lot that has never been sold and the sell price is left blank, and that case is excluded.
- Maintenance.RemoveFirst: requires the element to be present. The program's `list.remove` would raise otherwise, but it is only ever called on the entry just selected.
- Maintenance.Portfolio: the class assumes that no entry object is listed twice. The program builds a new object for every loaded or entered lot, so `list.remove` removes the chosen position.
- The program sorts on the percentage after it is rounded to two decimals, and the model does the same.
