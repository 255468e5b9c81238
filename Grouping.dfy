/**
 * The first step of `calculate_insights`: the lots are grouped by symbol into a
 * dictionary whose keys keep the order in which each symbol first appears, and
 * each group is summed.
 */
module Grouping {
  import opened Lots

  predicate Distinct<T(==)>(xs: seq<T>) {
    forall i, j :: 0 <= i < j < |xs| ==> xs[i] != xs[j]
  }

  /** Some lot of `lots` carries the symbol `s`. */
  predicate Holds(lots: seq<Lot>, s: string) {
    exists i :: 0 <= i < |lots| && lots[i].name == s
  }

  /** The keys of the group dictionary: each symbol once, in order of first appearance. */
  function Symbols(lots: seq<Lot>): (r: seq<string>)
    ensures Distinct(r)
  {
    if lots == [] then []
    else
      var prev := Symbols(lots[..|lots| - 1]);
      var s := lots[|lots| - 1].name;
      if s in prev then prev else prev + [s]
  }

  /** A symbol is a key exactly when some lot carries it. */
  lemma {:induction false} SymbolsMembers(lots: seq<Lot>)
    ensures forall s :: s in Symbols(lots) <==> Holds(lots, s)
  {
    if lots != [] {
      var p := lots[..|lots| - 1];
      SymbolsMembers(p);
      assert forall t :: Holds(p, t) ==> Holds(lots, t) by {
        forall t | Holds(p, t) ensures Holds(lots, t) {
          var k :| 0 <= k < |p| && p[k].name == t;
          assert lots[k].name == t;
        }
      }
      assert Holds(lots, lots[|lots| - 1].name);
      forall t | Holds(lots, t) ensures t in Symbols(lots) {
        var k :| 0 <= k < |lots| && lots[k].name == t;
        if k < |p| {
          assert p[k].name == t;
        }
      }
    }
  }

  /** The group of `s`: its lots, in input order. */
  function LotsOf(lots: seq<Lot>, s: string): (r: seq<Lot>)
    ensures forall l :: l in r <==> l in lots && l.name == s

  {
    if lots == [] then []
    else
      var prev := LotsOf(lots[..|lots| - 1], s);
      var last := lots[|lots| - 1];
      assert lots == lots[..|lots| - 1] + [last];
      if last.name == s then prev + [last] else prev
  }

  /** The position of the first lot carrying `s`. */
  function FirstIndex(lots: seq<Lot>, s: string): (i: nat)
    requires Holds(lots, s)
    ensures i < |lots| && lots[i].name == s
    ensures forall j :: 0 <= j < i ==> lots[j].name != s
  {
    if lots[0].name == s then 0
    else
      assert Holds(lots[1..], s) by {
        var k :| 0 <= k < |lots| && lots[k].name == s;
        assert lots[1..][k - 1].name == s;
      }
      1 + FirstIndex(lots[1..], s)
  }

  /** The groups laid end to end, in key order. */
  function Regroup(lots: seq<Lot>, names: seq<string>): seq<Lot> {
    if names == [] then [] else Regroup(lots, names[..|names| - 1]) + LotsOf(lots, names[|names| - 1])
  }

  /** Cost of one lot: purchase price times quantity. */
  function LotCost(l: Lot): real {
    l.purchasePrice * l.quantity as real
  }

  /** Profit booked on one lot: nothing while it is open. */
  function LotProfit(l: Lot): real {
    match l.sellPrice
    case None => 0.0
    case Some(p) => (p - l.purchasePrice) * l.quantity as real
  }

  /** The sum of `f` over the lots. */
  function Total(ls: seq<Lot>, f: Lot -> real): real {
    if ls == [] then 0.0 else Total(ls[..|ls| - 1], f) + f(ls[|ls| - 1])
  }

  /** The number of shares over the lots. */
  function Quantity(ls: seq<Lot>): int {
    if ls == [] then 0 else Quantity(ls[..|ls| - 1]) + ls[|ls| - 1].quantity
  }

  /** `total_purchase_price` of a group. */
  function Cost(ls: seq<Lot>): real {
    Total(ls, LotCost)
  }

  /** `cumulative_profit` of a group: realised profit over its sold lots. */
  function Realised(ls: seq<Lot>): real {
    Total(ls, LotProfit)
  }

  /** The sum of `f` group by group, over the groups of `names`. */
  function SymbolTotal(lots: seq<Lot>, names: seq<string>, f: Lot -> real): real {
    if names == [] then 0.0 else SymbolTotal(lots, names[..|names| - 1], f) + Total(LotsOf(lots, names[|names| - 1]), f)
  }

  /** The share count group by group, over the groups of `names`. */
  function SymbolQuantity(lots: seq<Lot>, names: seq<string>): int {
    if names == [] then 0 else SymbolQuantity(lots, names[..|names| - 1]) + Quantity(LotsOf(lots, names[|names| - 1]))
  }

  lemma LotsOfSnoc(lots: seq<Lot>, l: Lot, s: string)
    ensures LotsOf(lots + [l], s) == LotsOf(lots, s) + (if l.name == s then [l] else [])
  {
    assert (lots + [l])[..|lots|] == lots;
  }

  /** Appending a lot leaves the groups of every other symbol as they were. */
  lemma OtherGroupsUnchanged(lots: seq<Lot>, l: Lot)
    ensures forall s :: s != l.name ==> LotsOf(lots + [l], s) == LotsOf(lots, s)
  {
    forall s | s != l.name ensures LotsOf(lots + [l], s) == LotsOf(lots, s) {
      LotsOfSnoc(lots, l, s);
    }
  }

  lemma SymbolsSnoc(lots: seq<Lot>, l: Lot)
    ensures Symbols(lots + [l]) == if l.name in Symbols(lots) then Symbols(lots) else Symbols(lots) + [l.name]
  {
    assert (lots + [l])[..|lots|] == lots;
  }

  /** A symbol that is not a key has an empty group. */
  lemma NoKeyNoGroup(lots: seq<Lot>, s: string)
    requires s !in Symbols(lots)
    ensures LotsOf(lots, s) == []
  {
    SymbolsMembers(lots);
    LotsOfAbsent(lots, s);
  }

  lemma {:induction false} LotsOfAbsent(lots: seq<Lot>, s: string)
    requires !Holds(lots, s)
    ensures LotsOf(lots, s) == []
  {
    if lots != [] {
      LotsOfAbsent(lots[..|lots| - 1], s);
    }
  }

  lemma {:induction false} FirstIndexSnoc(lots: seq<Lot>, l: Lot, s: string)
    requires Holds(lots, s)
    ensures Holds(lots + [l], s)
    ensures FirstIndex(lots + [l], s) == FirstIndex(lots, s)
  {
    var i := FirstIndex(lots, s);
    assert (lots + [l])[i] == lots[i];
    var j := FirstIndex(lots + [l], s);
    assert j <= i;
    assert lots[j] == (lots + [l])[j];
  }

  /**
   * The group keys come in order of first appearance: of two symbols, the one
   * listed earlier is the one whose first lot comes earlier.
   */
  lemma {:induction false} SymbolsInFirstAppearanceOrder(lots: seq<Lot>, a: nat, b: nat)
    requires a < b < |Symbols(lots)|
    ensures Holds(lots, Symbols(lots)[a]) && Holds(lots, Symbols(lots)[b])
    ensures FirstIndex(lots, Symbols(lots)[a]) < FirstIndex(lots, Symbols(lots)[b])
  {
    var p, l := lots[..|lots| - 1], lots[|lots| - 1];
    assert lots == p + [l];
    SymbolsSnoc(p, l);
    SymbolsMembers(lots);
    SymbolsMembers(p);
    var sp := Symbols(p);
    if b < |sp| {
      SymbolsInFirstAppearanceOrder(p, a, b);
      FirstIndexSnoc(p, l, sp[a]);
      FirstIndexSnoc(p, l, sp[b]);
    } else {
      assert Symbols(lots) == sp + [l.name] && Symbols(lots)[b] == l.name;
      FirstIndexSnoc(p, l, sp[a]);
      assert !Holds(p, l.name);
      assert FirstIndex(lots, l.name) == |p|;
    }
  }

  lemma {:induction false} RegroupSnoc(lots: seq<Lot>, l: Lot, names: seq<string>)
    requires Distinct(names)
    ensures multiset(Regroup(lots + [l], names))
         == multiset(Regroup(lots, names)) + if l.name in names then multiset{l} else multiset{}
  {
    if names != [] {
      var init, last := names[..|names| - 1], names[|names| - 1];
      assert names == init + [last];
      RegroupSnoc(lots, l, init);
      LotsOfSnoc(lots, l, last);
    }
  }

  /** Grouping loses and duplicates no lot: the groups together are a permutation of the input. */
  lemma {:induction false} GroupingPartitions(lots: seq<Lot>)
    ensures multiset(Regroup(lots, Symbols(lots))) == multiset(lots)
  {
    if lots != [] {
      var p, l := lots[..|lots| - 1], lots[|lots| - 1];
      assert lots == p + [l];
      GroupingPartitions(p);
      SymbolsSnoc(p, l);
      var sp := Symbols(p);
      RegroupSnoc(p, l, sp);
      if l.name !in sp {
        SymbolsMembers(p);
        NewSymbolGroup(p, l, sp);
      }
    }
  }

  lemma NewSymbolGroup(p: seq<Lot>, l: Lot, names: seq<string>)
    requires !Holds(p, l.name)
    ensures Regroup(p + [l], names + [l.name]) == Regroup(p + [l], names) + [l]
  {
    assert (names + [l.name])[..|names|] == names;
    LotsOfSnoc(p, l, l.name);
    LotsOfAbsent(p, l.name);
  }

  lemma {:induction false} SymbolTotalSnoc(lots: seq<Lot>, l: Lot, names: seq<string>, f: Lot -> real)
    requires Distinct(names)
    ensures SymbolTotal(lots + [l], names, f) == SymbolTotal(lots, names, f) + if l.name in names then f(l) else 0.0
  {
    if names != [] {
      var init, last := names[..|names| - 1], names[|names| - 1];
      assert names == init + [last];
      SymbolTotalSnoc(lots, l, init, f);
      LotsOfSnoc(lots, l, last);
      var g := LotsOf(lots, last);
      if l.name == last {
        assert (g + [l])[..|g|] == g;
      }
    }
  }

  /** Summing group by group gives the sum over all lots: each lot is counted in exactly one group. */
  lemma {:induction false} TotalSplitsBySymbol(lots: seq<Lot>, f: Lot -> real)
    ensures SymbolTotal(lots, Symbols(lots), f) == Total(lots, f)
  {
    if lots != [] {
      var p, l := lots[..|lots| - 1], lots[|lots| - 1];
      assert lots == p + [l];
      TotalSplitsBySymbol(p, f);
      SymbolsSnoc(p, l);
      var sp := Symbols(p);
      SymbolTotalSnoc(p, l, sp, f);
      if l.name !in sp {
        SymbolsMembers(p);
        NewSymbolTotal(p, l, sp, f);
      }
    }
  }

  lemma NewSymbolTotal(p: seq<Lot>, l: Lot, names: seq<string>, f: Lot -> real)
    requires !Holds(p, l.name)
    ensures SymbolTotal(p + [l], names + [l.name], f) == SymbolTotal(p + [l], names, f) + f(l)
  {
    assert (names + [l.name])[..|names|] == names;
    LotsOfSnoc(p, l, l.name);
    LotsOfAbsent(p, l.name);
    assert LotsOf(p + [l], l.name) == [l];
    assert [l][..0] == [];
    assert Total([l], f) == f(l);
  }

  lemma {:induction false} SymbolQuantitySnoc(lots: seq<Lot>, l: Lot, names: seq<string>)
    requires Distinct(names)
    ensures SymbolQuantity(lots + [l], names) == SymbolQuantity(lots, names) + if l.name in names then l.quantity else 0
  {
    if names != [] {
      var init, last := names[..|names| - 1], names[|names| - 1];
      assert names == init + [last];
      SymbolQuantitySnoc(lots, l, init);
      LotsOfSnoc(lots, l, last);
      var g := LotsOf(lots, last);
      if l.name == last {
        assert (g + [l])[..|g|] == g;
      }
    }
  }

  /** The share counts of the groups add up to the share count of all lots. */
  lemma {:induction false} QuantitySplitsBySymbol(lots: seq<Lot>)
    ensures SymbolQuantity(lots, Symbols(lots)) == Quantity(lots)
  {
    if lots != [] {
      var p, l := lots[..|lots| - 1], lots[|lots| - 1];
      assert lots == p + [l];
      QuantitySplitsBySymbol(p);
      SymbolsSnoc(p, l);
      var sp := Symbols(p);
      SymbolQuantitySnoc(p, l, sp);
      if l.name !in sp {
        SymbolsMembers(p);
        NewSymbolQuantity(p, l, sp);
      }
    }
  }

  lemma NewSymbolQuantity(p: seq<Lot>, l: Lot, names: seq<string>)
    requires !Holds(p, l.name)
    ensures SymbolQuantity(p + [l], names + [l.name]) == SymbolQuantity(p + [l], names) + l.quantity
  {
    assert (names + [l.name])[..|names|] == names;
    LotsOfSnoc(p, l, l.name);
    LotsOfAbsent(p, l.name);
    assert LotsOf(p + [l], l.name) == [l];
    assert [l][..0] == [];
    assert Quantity([l]) == l.quantity;
  }

  /** A group none of whose lots has been sold has booked no profit. */
  lemma {:induction false} NoSaleNoRealisedProfit(ls: seq<Lot>)
    requires forall i :: 0 <= i < |ls| ==> ls[i].sellPrice.None?
    ensures Realised(ls) == 0.0
  {
    if ls != [] {
      NoSaleNoRealisedProfit(ls[..|ls| - 1]);
    }
  }
}
