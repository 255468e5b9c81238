/**
 * What `calculate_insights` reports, as functions of the lots and of the
 * price source: one row per priced symbol in group order, the totals over
 * those rows, and the printed table (rows sorted and ranked, totals last).
 */
module Insights {
  import opened Wrappers
  import opened Lots
  import opened Grouping
  import opened Figures
  import opened Ranking

  /** The market-data lookup: the latest price of a symbol, or `None` when none can be fetched. */
  type PriceSource = string -> Option<real>

  /** The row of symbol `s` when its price is `price`. */
  function RowFor(lots: seq<Lot>, s: string, price: real): Row {
    var g := LotsOf(lots, s);
    MakeRow(s, Cost(g), Quantity(g), Realised(g), price)
  }

  /** The rows of the groups of `names`, in that order, skipping every symbol without a price. */
  function PricedRows(lots: seq<Lot>, names: seq<string>, quote: PriceSource): seq<Row> {
    if names == [] then []
    else
      var rows := PricedRows(lots, names[..|names| - 1], quote);
      var s := names[|names| - 1];
      match quote(s)
      case None => rows
      case Some(price) => rows + [RowFor(lots, s, price)]
  }

  /** The symbols of `names` that have a price. */
  function Priced(names: seq<string>, quote: PriceSource): seq<string> {
    if names == [] then []
    else
      var prev := Priced(names[..|names| - 1], quote);
      if quote(names[|names| - 1]).Some? then prev + [names[|names| - 1]] else prev
  }

  /** The symbols of `names` for which "Could not retrieve current price" is printed, in that order. */
  function Unpriced(names: seq<string>, quote: PriceSource): seq<string> {
    if names == [] then []
    else
      var prev := Unpriced(names[..|names| - 1], quote);
      if quote(names[|names| - 1]).None? then prev + [names[|names| - 1]] else prev
  }

  lemma PricedRowsSnoc(lots: seq<Lot>, names: seq<string>, s: string, quote: PriceSource)
    ensures PricedRows(lots, names + [s], quote)
         == match quote(s) case None => PricedRows(lots, names, quote) case Some(p) => PricedRows(lots, names, quote) + [RowFor(lots, s, p)]
  {
    assert (names + [s])[..|names|] == names;
  }

  lemma UnpricedSnoc(names: seq<string>, s: string, quote: PriceSource)
    ensures Unpriced(names + [s], quote) == if quote(s).None? then Unpriced(names, quote) + [s] else Unpriced(names, quote)
  {
    assert (names + [s])[..|names|] == names;
  }

  /** `table_data` before sorting. */
  function Rows(lots: seq<Lot>, quote: PriceSource): seq<Row> {
    PricedRows(lots, Symbols(lots), quote)
  }

  /** The printed table: the rows by falling percentage, numbered from 1, then the totals row. */
  function Table(lots: seq<Lot>, quote: PriceSource): seq<Line> {
    var rows := Rows(lots, quote);
    Rank(SortByPercent(rows)) + [TotalLine(TotalsOf(rows))]
  }

  function RowSymbols(rows: seq<Row>): (r: seq<string>)
    ensures |r| == |rows| && forall i :: 0 <= i < |rows| ==> r[i] == rows[i].symbol
  {
    if rows == [] then [] else RowSymbols(rows[..|rows| - 1]) + [rows[|rows| - 1].symbol]
  }

  /** The lots of every symbol but `s`, in their order. */
  function Without(lots: seq<Lot>, s: string): seq<Lot>
  {
    if lots == [] then []
    else
      var prev := Without(lots[..|lots| - 1], s);
      if lots[|lots| - 1].name == s then prev else prev + [lots[|lots| - 1]]
  }

  /** The names of `names` other than `s`, in their order. */
  function Drop(names: seq<string>, s: string): (r: seq<string>)
    ensures forall t :: t in r <==> t in names && t != s
  {
    if names == [] then []
    else
      var prev := Drop(names[..|names| - 1], s);
      if names[|names| - 1] == s then prev else prev + [names[|names| - 1]]
  }

  lemma {:induction false} PricedRowSymbols(lots: seq<Lot>, names: seq<string>, quote: PriceSource)
    ensures RowSymbols(PricedRows(lots, names, quote)) == Priced(names, quote)
  {
    if names != [] {
      var init, s := names[..|names| - 1], names[|names| - 1];
      PricedRowSymbols(lots, init, quote);
      var prev := PricedRows(lots, init, quote);
      if quote(s).Some? {
        var rows := prev + [RowFor(lots, s, quote(s).value)];
        assert rows[..|prev|] == prev;
      }
    }
  }

  lemma {:induction false} PricedMembers(names: seq<string>, quote: PriceSource)
    ensures forall s :: s in Priced(names, quote) <==> s in names && quote(s).Some?
    ensures Distinct(names) ==> Distinct(Priced(names, quote))
  {
    if names != [] {
      var init, s := names[..|names| - 1], names[|names| - 1];
      assert names == init + [s];
      PricedMembers(init, quote);
    }
  }

  /** Exactly the symbols without a price get the diagnostic, each once when the symbols are distinct. */
  lemma {:induction false} UnpricedMembers(names: seq<string>, quote: PriceSource)
    ensures forall s :: s in Unpriced(names, quote) <==> s in names && quote(s).None?
    ensures Distinct(names) ==> Distinct(Unpriced(names, quote))
  {
    if names != [] {
      var init, s := names[..|names| - 1], names[|names| - 1];
      assert names == init + [s];
      UnpricedMembers(init, quote);
    }
  }

  lemma {:induction false} PricedRowContents(lots: seq<Lot>, names: seq<string>, quote: PriceSource)
    ensures forall i :: 0 <= i < |PricedRows(lots, names, quote)| ==>
      var row := PricedRows(lots, names, quote)[i];
      quote(row.symbol) == Some(row.price) && row == RowFor(lots, row.symbol, row.price)
  {
    if names != [] {
      var init, s := names[..|names| - 1], names[|names| - 1];
      PricedRowContents(lots, init, quote);
      var prev := PricedRows(lots, init, quote);
      if quote(s).Some? {
        var r := RowFor(lots, s, quote(s).value);
        var rows := prev + [r];
        assert PricedRows(lots, names, quote) == rows;
        forall i | 0 <= i < |rows|
          ensures quote(rows[i].symbol) == Some(rows[i].price) && rows[i] == RowFor(lots, rows[i].symbol, rows[i].price)
        {
          if i < |prev| {
            assert prev[i] == RowFor(lots, prev[i].symbol, prev[i].price);
          }
        }
      }
    }
  }

  /**
   * The report has one row per symbol that has a price and none for any
   * other symbol; each row is computed from its symbol's whole group at the
   * fetched price.
   */
  lemma RowsAreThePricedSymbols(lots: seq<Lot>, quote: PriceSource)
    ensures var rows := Rows(lots, quote);
      Distinct(RowSymbols(rows)) &&
      (forall s :: s in RowSymbols(rows) <==> Holds(lots, s) && quote(s).Some?) &&
      (forall i :: 0 <= i < |rows| ==>
         quote(rows[i].symbol) == Some(rows[i].price) && rows[i] == RowFor(lots, rows[i].symbol, rows[i].price))
  {
    SymbolsMembers(lots);
    PricedRowSymbols(lots, Symbols(lots), quote);
    PricedMembers(Symbols(lots), quote);
    PricedRowContents(lots, Symbols(lots), quote);
  }

  lemma WithoutSnoc(lots: seq<Lot>, l: Lot, s: string)
    ensures Without(lots + [l], s) == if l.name == s then Without(lots, s) else Without(lots, s) + [l]
  {
    assert (lots + [l])[..|lots|] == lots;
  }

  lemma DropSnoc(names: seq<string>, t: string, s: string)
    ensures Drop(names + [t], s) == if t == s then Drop(names, s) else Drop(names, s) + [t]
  {
    assert (names + [t])[..|names|] == names;
  }

  lemma {:induction false} LotsOfWithout(lots: seq<Lot>, s: string, t: string)
    requires t != s
    ensures LotsOf(Without(lots, s), t) == LotsOf(lots, t)
  {
    if lots != [] {
      var p, l := lots[..|lots| - 1], lots[|lots| - 1];
      assert lots == p + [l];
      LotsOfWithout(p, s, t);
      LotsOfSnoc(p, l, t);
      WithoutSnoc(p, l, s);
      if l.name != s {
        LotsOfSnoc(Without(p, s), l, t);
      }
    }
  }

  lemma {:induction false} SymbolsWithout(lots: seq<Lot>, s: string)
    ensures Symbols(Without(lots, s)) == Drop(Symbols(lots), s)
  {
    if lots != [] {
      var p, l := lots[..|lots| - 1], lots[|lots| - 1];
      assert lots == p + [l];
      SymbolsWithout(p, s);
      SymbolsSnoc(p, l);
      WithoutSnoc(p, l, s);
      var sp := Symbols(p);
      if l.name != s {
        SymbolsSnoc(Without(p, s), l);
        assert l.name in Drop(sp, s) <==> l.name in sp;
        if l.name !in sp {
          DropSnoc(sp, l.name, s);
        }
      } else if l.name !in sp {
        DropSnoc(sp, l.name, s);
      }
    }
  }

  lemma {:induction false} PricedRowsDrop(lots: seq<Lot>, names: seq<string>, quote: PriceSource, s: string)
    requires quote(s).None?
    ensures PricedRows(Without(lots, s), Drop(names, s), quote) == PricedRows(lots, names, quote)
  {
    if names != [] {
      var init, t := names[..|names| - 1], names[|names| - 1];
      assert names == init + [t];
      PricedRowsDrop(lots, init, quote, s);
      DropSnoc(init, t, s);
      if t != s {
        var dropped := Drop(init, s);
        assert (dropped + [t])[..|dropped|] == dropped;
        if quote(t).Some? {
          LotsOfWithout(lots, s, t);
        }
      }
    }
  }

  /**
   * A symbol without a price leaves no trace: the rows, the totals and the
   * whole table are what they would be if its lots were not there.
   */
  lemma UnpricedSymbolLeavesNoTrace(lots: seq<Lot>, quote: PriceSource, s: string)
    requires quote(s).None?
    ensures Rows(lots, quote) == Rows(Without(lots, s), quote)
    ensures TotalsOf(Rows(lots, quote)) == TotalsOf(Rows(Without(lots, s), quote))
    ensures Table(lots, quote) == Table(Without(lots, s), quote)
  {
    SymbolsWithout(lots, s);
    PricedRowsDrop(lots, Symbols(lots), quote, s);
  }

  lemma PricedSnoc(names: seq<string>, s: string, quote: PriceSource)
    ensures Priced(names + [s], quote) == if quote(s).Some? then Priced(names, quote) + [s] else Priced(names, quote)
  {
    assert (names + [s])[..|names|] == names;
  }

  lemma GroupSumsSnoc(lots: seq<Lot>, names: seq<string>, s: string)
    ensures SymbolTotal(lots, names + [s], LotCost) == SymbolTotal(lots, names, LotCost) + Cost(LotsOf(lots, s))
    ensures SymbolQuantity(lots, names + [s]) == SymbolQuantity(lots, names) + Quantity(LotsOf(lots, s))
  {
    assert (names + [s])[..|names|] == names;
  }

  lemma {:induction false} PricedRowsSums(lots: seq<Lot>, names: seq<string>, quote: PriceSource)
    ensures SumCost(PricedRows(lots, names, quote)) == SymbolTotal(lots, Priced(names, quote), LotCost)
    ensures SumQuantity(PricedRows(lots, names, quote)) == SymbolQuantity(lots, Priced(names, quote))
  {
    if names != [] {
      var init, s := names[..|names| - 1], names[|names| - 1];
      PricedRowsSums(lots, init, quote);
      if quote(s).Some? {
        SumsSnoc(PricedRows(lots, init, quote), RowFor(lots, s, quote(s).value));
        GroupSumsSnoc(lots, Priced(init, quote), s);
      }
    }
  }

  /**
   * Total investment and total quantity are the purchase cost and the share
   * count of the priced groups, each group counted once.
   */
  lemma TotalsArePricedGroupSums(lots: seq<Lot>, quote: PriceSource)
    ensures TotalsOf(Rows(lots, quote)).investment == SymbolTotal(lots, Priced(Symbols(lots), quote), LotCost)
    ensures TotalsOf(Rows(lots, quote)).quantity == SymbolQuantity(lots, Priced(Symbols(lots), quote))
  {
    PricedRowsSums(lots, Symbols(lots), quote);
  }

  lemma {:induction false} AllPricedKeepsNames(names: seq<string>, quote: PriceSource)
    requires forall s :: s in names ==> quote(s).Some?
    ensures Priced(names, quote) == names
  {
    if names != [] {
      assert names == names[..|names| - 1] + [names[|names| - 1]];
      AllPricedKeepsNames(names[..|names| - 1], quote);
    }
  }

  /** When every symbol has a price, the totals cover every lot: investment is the cost of all lots, quantity all their shares. */
  lemma AllPricedTotalsCoverEveryLot(lots: seq<Lot>, quote: PriceSource)
    requires forall i :: 0 <= i < |lots| ==> quote(lots[i].name).Some?
    ensures TotalsOf(Rows(lots, quote)).investment == Cost(lots)
    ensures TotalsOf(Rows(lots, quote)).quantity == Quantity(lots)
  {
    TotalsArePricedGroupSums(lots, quote);
    SymbolsMembers(lots);
    assert forall s :: s in Symbols(lots) ==> quote(s).Some?;
    AllPricedKeepsNames(Symbols(lots), quote);
    TotalSplitsBySymbol(lots, LotCost);
    QuantitySplitsBySymbol(lots);
  }

  /** Every sorted row is one of the rows. */
  lemma SortedFromRows(rows: seq<Row>)
    ensures |SortByPercent(rows)| == |rows|
    ensures forall i :: 0 <= i < |rows| ==> SortByPercent(rows)[i] in rows
  {
    var sorted := SortByPercent(rows);
    assert |multiset(sorted)| == |multiset(rows)|;
    forall i | 0 <= i < |rows| ensures sorted[i] in rows {
      assert sorted[i] in multiset(sorted);
    }
  }

  /**
   * The table has one ranked line per row, numbered 1..n, by falling
   * percentage, and the totals row as its last line.
   */
  lemma TableShape(lots: seq<Lot>, quote: PriceSource)
    ensures var rows, t := Rows(lots, quote), Table(lots, quote);
      |t| == |rows| + 1 && t[|rows|] == TotalLine(TotalsOf(rows)) &&
      (forall i :: 0 <= i < |rows| ==> t[i].Ranked? && t[i].rank == i + 1) &&
      (forall i, j :: 0 <= i < j < |rows| ==> t[i].row.percent >= t[j].row.percent) &&
      (forall i :: 0 <= i < |rows| ==> t[i].row in rows)
  {
    var rows := Rows(lots, quote);
    SortedFromRows(rows);
    assert Table(lots, quote) == Rank(SortByPercent(rows)) + [TotalLine(TotalsOf(rows))];
  }
}
