/**
 * The state changes behind the edit and delete workflows, with the prompts
 * replaced by parameters: a lot is chosen by its symbol and by its position
 * among that symbol's lots, then patched in place or removed from the list.
 */
module Maintenance {
  import opened Lots
  import opened Grouping

  /** The group of `s` in `a + b` is the group in `a` followed by the group in `b`. */
  lemma {:induction false} LotsOfAppend(a: seq<Lot>, b: seq<Lot>, s: string)
    ensures LotsOf(a + b, s) == LotsOf(a, s) + LotsOf(b, s)
  {
    if b == [] {
      assert a + b == a;
    } else {
      var b' := b[..|b| - 1];
      var l := b[|b| - 1];
      assert a + b == (a + b') + [l];
      assert b == b' + [l];
      LotsOfAppend(a, b', s);
      LotsOfSnoc(a + b', l, s);
      LotsOfSnoc(b', l, s);
    }
  }

  /**
   * Where the `k`-th lot of symbol `s` (counting from 0) sits in `lots`:
   * the entry that is number k + 1 in the list of purchase dates shown.
   */
  function NthOf(lots: seq<Lot>, s: string, k: nat): (i: nat)
    requires k < |LotsOf(lots, s)|
    ensures i < |lots| && lots[i].name == s
    ensures |LotsOf(lots[..i], s)| == k
    ensures LotsOf(lots, s)[k] == lots[i]
  {
    var n := |lots| - 1;
    var prefix := lots[..n];
    assert lots == prefix + [lots[n]];
    LotsOfSnoc(prefix, lots[n], s);
    if lots[n].name == s && k == |LotsOf(prefix, s)| then
      assert lots[..n] == prefix;
      n
    else
      var i := NthOf(prefix, s, k);
      assert lots[..i] == prefix[..i];
      i
  }

  /** The position of the first element equal to `x`. */
  function FirstPosition<T(==)>(xs: seq<T>, x: T): (i: nat)
    requires x in xs
    ensures i < |xs| && xs[i] == x && x !in xs[..i]
  {
    if xs[0] == x then 0
    else
      var i := FirstPosition(xs[1..], x);
      assert xs[..i + 1] == [xs[0]] + xs[1..][..i];
      i + 1
  }

  /** `list.remove`: drops the first element equal to `x` (the program never removes an absent element). */
  function RemoveFirst<T(==)>(xs: seq<T>, x: T): (r: seq<T>)
    requires x in xs
    ensures |r| == |xs| - 1 && multiset(r) == multiset(xs) - multiset{x}
  {
    var i := FirstPosition(xs, x);
    assert xs == xs[..i] + [x] + xs[i + 1..];
    xs[..i] + xs[i + 1..]
  }

  /** When `xs[j]` occurs nowhere before `j`, removing it cuts out exactly position `j`. */
  lemma RemoveFirstAt<T>(xs: seq<T>, j: nat)
    requires j < |xs| && xs[j] !in xs[..j]
    ensures RemoveFirst(xs, xs[j]) == xs[..j] + xs[j + 1..]
  {
  }

  /** The group of `s` split around position `i`, with and without the lot at `i`. */
  lemma GroupAround(lots: seq<Lot>, i: nat, s: string)
    requires i < |lots|
    ensures LotsOf(lots, s) == LotsOf(lots[..i], s) + (if lots[i].name == s then [lots[i]] else []) + LotsOf(lots[i + 1..], s)
    ensures LotsOf(lots[..i] + lots[i + 1..], s) == LotsOf(lots[..i], s) + LotsOf(lots[i + 1..], s)
  {
    assert lots == lots[..i] + [lots[i]] + lots[i + 1..];
    LotsOfAppend(lots[..i] + [lots[i]], lots[i + 1..], s);
    LotsOfAppend(lots[..i], lots[i + 1..], s);
    LotsOfSnoc(lots[..i], lots[i], s);
  }

  /** Deleting the lot at `i` leaves the group of every other symbol as it was. */
  lemma DeleteKeepsOtherGroups(lots: seq<Lot>, i: nat, s: string)
    requires i < |lots| && s != lots[i].name
    ensures LotsOf(lots[..i] + lots[i + 1..], s) == LotsOf(lots, s)
  {
    GroupAround(lots, i, s);
  }

  /**
   * Deleting the lot at `i` takes exactly that lot out of its symbol's group:
   * it is entry `k` of the group, and the group loses entry `k` only.
   */
  lemma DeleteCutsOwnGroup(lots: seq<Lot>, i: nat)
    requires i < |lots|
    ensures var s, k := lots[i].name, |LotsOf(lots[..i], lots[i].name)|;
      k < |LotsOf(lots, s)| && LotsOf(lots, s)[k] == lots[i] &&
      LotsOf(lots[..i] + lots[i + 1..], s) == LotsOf(lots, s)[..k] + LotsOf(lots, s)[k + 1..]
  {
    var s := lots[i].name;
    GroupAround(lots, i, s);
    var before, after := LotsOf(lots[..i], s), LotsOf(lots[i + 1..], s);
    var g := before + [lots[i]] + after;
    assert g[..|before|] == before;
    assert g[|before| + 1..] == after;
  }

  /** Cutting an element out of a list without repetitions leaves one without repetitions. */
  lemma CutKeepsDistinct<T>(xs: seq<T>, i: nat)
    requires i < |xs|
    requires Distinct(xs)
    ensures Distinct(xs[..i] + xs[i + 1..])
  {
    var cut := xs[..i] + xs[i + 1..];
    forall a, b | 0 <= a < b < |cut| ensures cut[a] != cut[b] {
      var a' := if a < i then a else a + 1;
      var b' := if b < i then b else b + 1;
      assert cut[a] == xs[a'] && cut[b] == xs[b'];
    }
  }

  /** Cutting an entry out of the list cuts its lot out of the snapshot. */
  lemma SnapshotCut(entries: seq<StockEntry>, i: nat)
    requires i < |entries|
    ensures Snapshot(entries[..i] + entries[i + 1..]) == Snapshot(entries)[..i] + Snapshot(entries)[i + 1..]
  {
    var cut := entries[..i] + entries[i + 1..];
    var lots := Snapshot(entries);
    var left := Snapshot(cut);
    var right := lots[..i] + lots[i + 1..];
    assert |left| == |right|;
    forall j | 0 <= j < |left| ensures left[j] == right[j] {
      if j < i {
        assert cut[j] == entries[j];
      } else {
        assert cut[j] == entries[j + 1];
      }
    }
  }

  /**
   * Removing entry `i` from a list without repeated entries: `list.remove`
   * cuts out exactly position `i`, the lots lose exactly lot `i`, and the
   * list still has no repeated entry.
   */
  lemma CutAt(entries: seq<StockEntry>, i: nat)
    requires i < |entries|
    requires Distinct(entries)
    ensures RemoveFirst(entries, entries[i]) == entries[..i] + entries[i + 1..]
    ensures Snapshot(RemoveFirst(entries, entries[i])) == Snapshot(entries)[..i] + Snapshot(entries)[i + 1..]
    ensures Distinct(RemoveFirst(entries, entries[i]))
  {
    assert entries[i] !in entries[..i];
    RemoveFirstAt(entries, i);
    SnapshotCut(entries, i);
    CutKeepsDistinct(entries, i);
  }

  /** The program's list of lots, which the edit and delete workflows change. */
  class Portfolio {
    var stocks: seq<StockEntry>

    /** No entry object appears twice: every lot is read from its own row or typed in anew. */
    ghost predicate Valid()
      reads this
    {
      Distinct(stocks)
    }

    /** The lots of the portfolio in list order. */
    function Values(): seq<Lot>
      reads this, stocks
    {
      Snapshot(stocks)
    }

    /** Starts from the freshly loaded list. */
    constructor (stocks: seq<StockEntry>)
      requires Distinct(stocks)
      ensures this.stocks == stocks && Valid()
    {
      this.stocks := stocks;
    }

    /**
     * Patches lot number `k` of symbol `s`: every blank field keeps its value,
     * the symbol is never changed, and every other lot stays as it was.
     */
    method Edit(s: string, k: nat, patch: Patch)
      requires Valid()
      requires k < |LotsOf(Values(), s)|
      requires patch.FitsOn(Values()[NthOf(Values(), s, k)])
      modifies stocks[NthOf(Values(), s, k)]
      ensures stocks == old(stocks) && Valid()
      ensures var i := NthOf(old(Values()), s, k);
        Values() == old(Values())[i := Merge(old(Values())[i], patch)]
    {
      var i := NthOf(Values(), s, k);
      var entry := stocks[i];
      entry.ApplyPatch(patch);
      forall j | 0 <= j < |stocks| && j != i
        ensures stocks[j].Value() == old(stocks[j].Value())
      {
        assert stocks[j] != entry;
      }
    }

    /** `stocks.remove(stocks[i])`: drops entry `i`; the others keep their order. */
    method Cut(i: nat)
      requires Valid() && i < |stocks|
      modifies this
      ensures Valid()
      ensures stocks == old(stocks[..i] + stocks[i + 1..])
      ensures Values() == old(Values()[..i] + Values()[i + 1..])
    {
      CutAt(stocks, i);
      stocks := RemoveFirst(stocks, stocks[i]);
    }

    /**
     * Removes lot number `k` of symbol `s` when the deletion is confirmed;
     * the other lots keep their relative order. Without confirmation nothing changes.
     */
    method Delete(s: string, k: nat, confirmed: bool)
      requires Valid()
      requires k < |LotsOf(Values(), s)|
      modifies this
      ensures Valid()
      ensures var i := NthOf(old(Values()), s, k);
        if confirmed then stocks == old(stocks[..i] + stocks[i + 1..]) && Values() == old(Values()[..i] + Values()[i + 1..])
        else stocks == old(stocks)
    {
      var i := NthOf(Values(), s, k);
      if confirmed {
        Cut(i);
      }
    }
  }
}
