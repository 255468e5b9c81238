/**
 * Worked examples of the report: one lot of AAA, two lots of BBB, a symbol
 * without a price, and a portfolio with nothing priced.
 */
module Examples {
  import opened Wrappers
  import opened Lots
  import opened Grouping
  import opened Figures
  import opened Ranking
  import opened Insights

  /** Quotes AAA at 120 and BBB at 65; CCC and every other symbol have no price. */
  function SampleQuote(s: string): Option<real> {
    if s == "AAA" then Some(120.0) else if s == "BBB" then Some(65.0) else None
  }

  /** The cost and share count of one or two lots. */
  lemma SmallSums(a: Lot, b: Lot)
    ensures Cost([a]) == LotCost(a) && Quantity([a]) == a.quantity
    ensures Cost([a, b]) == LotCost(a) + LotCost(b) && Quantity([a, b]) == a.quantity + b.quantity
  {
    assert [a][..0] == [] && [a, b][..1] == [a];
    assert Total([a], LotCost) == Total([], LotCost) + LotCost(a);
    assert Total([a, b], LotCost) == Total([a], LotCost) + LotCost(b);
  }

  /** One lot of AAA forms the single group AAA, and its row is the only row. */
  lemma SingleLotGroup()
    ensures var lots := [Lot("AAA", "2024-01-01", 100.0, 10, None, None)];
      Symbols(lots) == ["AAA"] && LotsOf(lots, "AAA") == lots && Cost(lots) == 1000.0 && Quantity(lots) == 10
      && Rows(lots, SampleQuote) == [RowFor(lots, "AAA", 120.0)]
  {
    var a := Lot("AAA", "2024-01-01", 100.0, 10, None, None);
    assert [a] == [] + [a];
    LotsOfSnoc([], a, "AAA");
    SymbolsSnoc([], a);
    SmallSums(a, a);
    assert ["AAA"] == [] + ["AAA"];
    PricedRowsSnoc([a], [], "AAA", SampleQuote);
  }

  /** The row of ten shares bought for 1000 in total, priced at 120. */
  lemma TenSharesAt120(realised: real)
    ensures var r := MakeRow("AAA", 1000.0, 10, realised, 120.0);
      r.average == 100.0 && r.value == 1200.0 && r.gainLoss == 200.0 && r.percent == 20.0
      && r.sellTarget == 130.0 && r.buyTarget == 95.0 && r.signal == Above
  {
    assert Round2(20.0) == 20.0 by {
      assert (20.0 * 100.0).Floor == 2000;
    }
  }

  /** Ten shares of AAA at 100, now at 120: average 100, value 1200, gain 200, 20 %, targets 130 and 95. */
  lemma SingleLotRow()
    ensures var rows := Rows([Lot("AAA", "2024-01-01", 100.0, 10, None, None)], SampleQuote);
      |rows| == 1 && rows[0].average == 100.0 && rows[0].value == 1200.0 && rows[0].gainLoss == 200.0
      && rows[0].percent == 20.0 && rows[0].sellTarget == 130.0 && rows[0].buyTarget == 95.0
      && rows[0].signal == Above
  {
    var lots := [Lot("AAA", "2024-01-01", 100.0, 10, None, None)];
    SingleLotGroup();
    TenSharesAt120(Realised(lots));
  }

  /** Two lots of one symbol make that symbol the only key, and its group is both lots. */
  lemma OneSymbolTwoLots(a: Lot, b: Lot)
    requires a.name == b.name
    ensures Symbols([a, b]) == [a.name] && LotsOf([a, b], a.name) == [a, b]
  {
    assert [a] == [] + [a] && [a, b] == [a] + [b];
    LotsOfSnoc([], a, a.name);
    LotsOfSnoc([a], b, a.name);
    SymbolsSnoc([], a);
    SymbolsSnoc([a], b);
  }

  /** Two lots of BBB form one group of 20 shares that cost 1200. */
  lemma TwoLotsGroup()
    ensures var lots := [Lot("BBB", "2024-01-01", 50.0, 10, None, None), Lot("BBB", "2024-02-01", 70.0, 10, None, None)];
      Symbols(lots) == ["BBB"] && LotsOf(lots, "BBB") == lots && Cost(lots) == 1200.0 && Quantity(lots) == 20
  {
    var a, b := Lot("BBB", "2024-01-01", 50.0, 10, None, None), Lot("BBB", "2024-02-01", 70.0, 10, None, None);
    OneSymbolTwoLots(a, b);
    SmallSums(a, b);
    assert LotCost(a) == 500.0 && LotCost(b) == 700.0;
  }

  /** Lots of BBB at 50 and 70, ten shares each: one row of 20 shares at an average of 60. */
  lemma TwoLotsAverage()
    ensures var rows := Rows([Lot("BBB", "2024-01-01", 50.0, 10, None, None), Lot("BBB", "2024-02-01", 70.0, 10, None, None)], SampleQuote);
      |rows| == 1 && rows[0].symbol == "BBB" && rows[0].quantity == 20 && rows[0].average == 60.0
  {
    var lots := [Lot("BBB", "2024-01-01", 50.0, 10, None, None), Lot("BBB", "2024-02-01", 70.0, 10, None, None)];
    TwoLotsGroup();
    assert ["BBB"] == [] + ["BBB"];
    PricedRowsSnoc(lots, [], "BBB", SampleQuote);
    assert PricedRows(lots, ["BBB"], SampleQuote) == [RowFor(lots, "BBB", 65.0)];
    assert Average(1200.0, 20) == 60.0;
  }

  /** Leaving out the lots of CCC from AAA, CCC leaves AAA. */
  lemma WithoutSample()
    ensures Without([Lot("AAA", "2024-01-01", 100.0, 10, None, None), Lot("CCC", "2024-03-01", 10.0, 5, None, None)], "CCC")
         == [Lot("AAA", "2024-01-01", 100.0, 10, None, None)]
  {
    var aaa, ccc := Lot("AAA", "2024-01-01", 100.0, 10, None, None), Lot("CCC", "2024-03-01", 10.0, 5, None, None);
    assert [aaa, ccc] == [aaa] + [ccc];
    WithoutSnoc([aaa], ccc, "CCC");
    assert [aaa] == [] + [aaa];
    WithoutSnoc([], aaa, "CCC");
  }

  /** CCC has no price: the report over AAA and CCC equals the report over AAA alone. */
  lemma UnpricedSymbolExcluded()
    ensures Table([Lot("AAA", "2024-01-01", 100.0, 10, None, None), Lot("CCC", "2024-03-01", 10.0, 5, None, None)], SampleQuote)
         == Table([Lot("AAA", "2024-01-01", 100.0, 10, None, None)], SampleQuote)
  {
    UnpricedSymbolLeavesNoTrace([Lot("AAA", "2024-01-01", 100.0, 10, None, None), Lot("CCC", "2024-03-01", 10.0, 5, None, None)], SampleQuote, "CCC");
    WithoutSample();
  }

  /** The diagnostic is printed for CCC and for nothing else. */
  lemma UnpricedSymbolReported()
    ensures Unpriced(Symbols([Lot("AAA", "2024-01-01", 100.0, 10, None, None), Lot("CCC", "2024-03-01", 10.0, 5, None, None)]), SampleQuote)
         == ["CCC"]
  {
    var aaa, ccc := Lot("AAA", "2024-01-01", 100.0, 10, None, None), Lot("CCC", "2024-03-01", 10.0, 5, None, None);
    assert [aaa, ccc] == [aaa] + [ccc] && [aaa] == [] + [aaa];
    SymbolsSnoc([], aaa);
    SymbolsSnoc([aaa], ccc);
    assert Symbols([aaa, ccc]) == ["AAA", "CCC"];
    assert ["AAA", "CCC"] == [] + ["AAA"] + ["CCC"];
    UnpricedSnoc([], "AAA", SampleQuote);
    UnpricedSnoc(["AAA"], "CCC", SampleQuote);
  }

  /** With nothing priced the investment is 0 and the totals percentage is 0, not a division error. */
  lemma NothingPricedTotals(lots: seq<Lot>, quote: PriceSource)
    requires forall i :: 0 <= i < |lots| ==> quote(lots[i].name).None?
    ensures TotalsOf(Rows(lots, quote)) == Totals(0, 0.0, 0.0, 0.0, 0.0)
  {
    RowsAreThePricedSymbols(lots, quote);
    assert Round2(0.0) == 0.0 by {
      assert (0.0 * 100.0).Floor == 0;
    }
  }
}
