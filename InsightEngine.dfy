/**
 * `calculate_insights` as the program runs it: a pass that groups the
 * entries into an insertion-ordered dictionary, a pass over the groups with
 * running sums and running portfolio totals, then the sort, the serial
 * numbers and the totals row.
 */
module InsightEngine {
  import opened Lots
  import opened Grouping
  import opened Figures
  import opened Ranking
  import opened Insights

  /**
   * One step of the first loop of `calculate_insights`: opens a group for a
   * symbol not seen before, then appends the entry to its symbol's group.
   */
  method Place(ghost lots: seq<Lot>, i: nat, names: seq<string>, groups: map<string, seq<StockEntry>>, stock: StockEntry)
    returns (names': seq<string>, groups': map<string, seq<StockEntry>>)
    requires i < |lots| && lots[i] == stock.Value()
    requires names == Symbols(lots[..i])
    requires groups.Keys == set n | n in names
    requires forall n :: n in names ==> n in groups && Snapshot(groups[n]) == LotsOf(lots[..i], n)
    ensures names' == Symbols(lots[..i + 1])
    ensures groups'.Keys == set n | n in names'
    ensures forall n :: n in names' ==> n in groups' && Snapshot(groups'[n]) == LotsOf(lots[..i + 1], n)
  {
    ghost var seen, lot := lots[..i], lots[i];
    assert lots[..i + 1] == seen + [lot];
    SymbolsSnoc(seen, lot);
    var g: seq<StockEntry>;
    if stock.name in names {
      names', g := names, groups[stock.name];
    } else {
      NoKeyNoGroup(seen, stock.name);
      names', g := names + [stock.name], [];
    }
    SnapshotSnoc(g, stock);
    groups' := groups[stock.name := g + [stock]];
    forall n | n in names' ensures n in groups' && Snapshot(groups'[n]) == LotsOf(seen + [lot], n) {
      LotsOfSnoc(seen, lot, n);
      if n != stock.name {
        assert n in names && groups'[n] == groups[n];
      }
    }
  }

  /**
   * The first loop of `calculate_insights`: builds the dictionary
   * `stock_groups`, given as its keys in insertion order and its entries.
   */
  method GroupByName(stocks: seq<StockEntry>, ghost lots: seq<Lot>) returns (names: seq<string>, groups: map<string, seq<StockEntry>>)
    requires lots == Snapshot(stocks)
    ensures names == Symbols(lots)
    ensures groups.Keys == set n | n in names
    ensures forall n :: n in names ==> n in groups && Snapshot(groups[n]) == LotsOf(lots, n)
  {
    names, groups := [], map[];
    var i := 0;
    while i < |stocks|
      invariant 0 <= i <= |stocks|
      invariant names == Symbols(lots[..i])
      invariant groups.Keys == set n | n in names
      invariant forall n :: n in names ==> n in groups && Snapshot(groups[n]) == LotsOf(lots[..i], n)
    {
      names, groups := Place(lots, i, names, groups, stocks[i]);
      i := i + 1;
    }
    assert lots[..|stocks|] == lots;
  }

  /**
   * The inner loop over one group: purchase cost, share count, and profit
   * booked on the sold lots only.
   */
  method SumGroup(entries: seq<StockEntry>) returns (cost: real, quantity: int, profit: real)
    ensures cost == Cost(Snapshot(entries))
    ensures quantity == Quantity(Snapshot(entries))
    ensures profit == Realised(Snapshot(entries))
  {
    ghost var group := Snapshot(entries);
    cost, quantity, profit := 0.0, 0, 0.0;
    var j := 0;
    while j < |entries|
      invariant 0 <= j <= |entries|
      invariant cost == Cost(group[..j])
      invariant quantity == Quantity(group[..j])
      invariant profit == Realised(group[..j])
    {
      var e := entries[j];
      assert group[..j + 1][..j] == group[..j];
      cost := cost + e.purchasePrice * e.quantity as real;
      quantity := quantity + e.quantity;
      if e.sellPrice.Some? {
        profit := profit + (e.sellPrice.value - e.purchasePrice) * e.quantity as real;
      }
      j := j + 1;
    }
    assert group[..|entries|] == group;
  }

  /**
   * One step of the second loop of `calculate_insights`: sums the group of
   * `name`, then either adds its row and its share of the running totals or
   * records that no price was found.
   */
  method AddGroup(ghost lots: seq<Lot>, ghost done: seq<string>, name: string, entries: seq<StockEntry>, quote: PriceSource,
                  rows: seq<Row>, totalQuantity: int, investment: real, currentValue: real, unpriced: seq<string>)
    returns (rows': seq<Row>, totalQuantity': int, investment': real, currentValue': real, unpriced': seq<string>)
    requires Snapshot(entries) == LotsOf(lots, name)
    requires rows == PricedRows(lots, done, quote) && unpriced == Unpriced(done, quote)
    requires investment == SumCost(rows) && currentValue == SumValue(rows) && totalQuantity == SumQuantity(rows)
    ensures rows' == PricedRows(lots, done + [name], quote) && unpriced' == Unpriced(done + [name], quote)
    ensures investment' == SumCost(rows') && currentValue' == SumValue(rows') && totalQuantity' == SumQuantity(rows')
  {
    var cost, quantity, profit := SumGroup(entries);
    rows', totalQuantity', investment', currentValue', unpriced' := rows, totalQuantity, investment, currentValue, unpriced;
    var price := quote(name);
    if price.Some? {
      var row := MakeRow(name, cost, quantity, profit, price.value);
      PricedRowsSnoc(lots, done, name, quote);
      assert rows + [row] == PricedRows(lots, done + [name], quote);
      UnpricedSnoc(done, name, quote);
      SumsSnoc(rows, row);
      investment' := investment + cost;
      currentValue' := currentValue + row.value;
      totalQuantity' := totalQuantity + quantity;
      rows' := rows + [row];
    } else {
      PricedRowsSnoc(lots, done, name, quote);
      UnpricedSnoc(done, name, quote);
      unpriced' := unpriced + [name];
    }
  }

  /**
   * The second loop of `calculate_insights`: one pass over the groups in key
   * order, building a row for every symbol with a price and keeping the
   * running portfolio totals.
   */
  method Tabulate(ghost lots: seq<Lot>, names: seq<string>, groups: map<string, seq<StockEntry>>, quote: PriceSource)
    returns (rows: seq<Row>, totalQuantity: int, investment: real, currentValue: real, unpriced: seq<string>)
    requires forall n :: n in names ==> n in groups && Snapshot(groups[n]) == LotsOf(lots, n)
    ensures rows == PricedRows(lots, names, quote)
    ensures unpriced == Unpriced(names, quote)
    ensures investment == SumCost(rows) && currentValue == SumValue(rows) && totalQuantity == SumQuantity(rows)
  {
    rows, totalQuantity, investment, currentValue, unpriced := [], 0, 0.0, 0.0, [];
    var k := 0;
    while k < |names|
      invariant 0 <= k <= |names|
      invariant rows == PricedRows(lots, names[..k], quote)
      invariant unpriced == Unpriced(names[..k], quote)
      invariant investment == SumCost(rows) && currentValue == SumValue(rows) && totalQuantity == SumQuantity(rows)
    {
      assert names[..k + 1] == names[..k] + [names[k]];
      rows, totalQuantity, investment, currentValue, unpriced :=
        AddGroup(lots, names[..k], names[k], groups[names[k]], quote, rows, totalQuantity, investment, currentValue, unpriced);
      k := k + 1;
    }
    assert names[..|names|] == names;
  }

  /** The table is determined by the rows alone. */
  lemma TableOfRows(lots: seq<Lot>, quote: PriceSource, rows: seq<Row>)
    requires rows == Rows(lots, quote)
    ensures Table(lots, quote) == Rank(SortByPercent(rows)) + [TotalLine(TotalsOf(rows))]
  {
  }

  /**
   * The end of `calculate_insights`: the totals row from the running sums,
   * then the rows sorted by falling percentage and numbered.
   */
  method Report(rows: seq<Row>, totalQuantity: int, investment: real, currentValue: real) returns (table: seq<Line>)
    requires investment == SumCost(rows) && currentValue == SumValue(rows) && totalQuantity == SumQuantity(rows)
    ensures table == Rank(SortByPercent(rows)) + [TotalLine(TotalsOf(rows))]
  {
    var totalGainLoss := currentValue - investment;
    var totals := Totals(totalQuantity, investment, currentValue, totalGainLoss, Percent(totalGainLoss, investment));
    table := Rank(SortByPercent(rows)) + [TotalLine(totals)];
  }

  /**
   * Computes the report of `stocks` with prices from `quote`. Returns the
   * printed table, total investment and total current value (the values the
   * program returns), and the symbols for which no price could be retrieved,
   * in the order their diagnostics are printed.
   */
  method CalculateInsights(stocks: seq<StockEntry>, quote: PriceSource)
    returns (table: seq<Line>, investment: real, currentValue: real, unpriced: seq<string>)
    ensures table == Table(Snapshot(stocks), quote)
    ensures investment == TotalsOf(Rows(Snapshot(stocks), quote)).investment
    ensures currentValue == TotalsOf(Rows(Snapshot(stocks), quote)).currentValue
    ensures unpriced == Unpriced(Symbols(Snapshot(stocks)), quote)
  {
    ghost var lots := Snapshot(stocks);
    var names, groups := GroupByName(stocks, lots);
    var rows, totalQuantity;
    rows, totalQuantity, investment, currentValue, unpriced := Tabulate(lots, names, groups, quote);
    assert rows == Rows(lots, quote);
    table := Report(rows, totalQuantity, investment, currentValue);
    TableOfRows(lots, quote, rows);
  }
}
