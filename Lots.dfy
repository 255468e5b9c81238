/**
 * One purchase lot of a stock (`StockEntry` in src/portfolio_tracker.py) and
 * the field patch that the edit workflow merges onto it.
 */
module Lots {
  import opened Wrappers

  /** The value of a lot at one moment: what `StockEntry` holds in its six fields. */
  datatype Lot = Lot(
    name: string,
    purchaseDate: string,
    purchasePrice: real,
    quantity: int,
    sellPrice: Option<real>,
    sellDate: Option<string>)

  /**
   * An edit of one lot. A `None` field stands for a blank answer, which keeps
   * the current value. The sale fields are only looked at when `updateSell`
   * is set (the user answered "yes" to updating the sell data).
   */
  datatype Patch = Patch(
    purchaseDate: Option<string>,
    purchasePrice: Option<real>,
    quantity: Option<int>,
    updateSell: bool,
    sellPrice: Option<real>,
    sellDate: Option<string>)
  {
    /** Every field is blank. */
    predicate IsBlank() {
      purchaseDate.None? && purchasePrice.None? && quantity.None? && sellPrice.None? && sellDate.None?
    }

    /**
     * The patch can be applied to `lot`: a blank sell price on a lot that has
     * none makes the program convert a missing value to a number, which fails.
     */
    predicate FitsOn(lot: Lot) {
      updateSell && sellPrice.None? ==> lot.sellPrice.Some?
    }
  }

  /** The lot after `patch`: each given field replaces the current one, each blank field keeps it. */
  function Merge(lot: Lot, patch: Patch): (r: Lot)
    requires patch.FitsOn(lot)
    ensures r.name == lot.name
    ensures patch.purchaseDate.Some? ==> r.purchaseDate == patch.purchaseDate.value
    ensures patch.purchaseDate.None? ==> r.purchaseDate == lot.purchaseDate
    ensures patch.purchasePrice.Some? ==> r.purchasePrice == patch.purchasePrice.value
    ensures patch.purchasePrice.None? ==> r.purchasePrice == lot.purchasePrice
    ensures patch.quantity.Some? ==> r.quantity == patch.quantity.value
    ensures patch.quantity.None? ==> r.quantity == lot.quantity
    ensures patch.updateSell && patch.sellPrice.Some? ==> r.sellPrice == patch.sellPrice
    ensures !patch.updateSell || patch.sellPrice.None? ==> r.sellPrice == lot.sellPrice
    ensures patch.updateSell && patch.sellDate.Some? ==> r.sellDate == patch.sellDate
    ensures !patch.updateSell || patch.sellDate.None? ==> r.sellDate == lot.sellDate
    ensures patch.IsBlank() ==> r == lot
    ensures patch.updateSell ==> r.sellPrice.Some?
  {
    lot.(
      purchaseDate := patch.purchaseDate.GetOr(lot.purchaseDate),
      purchasePrice := patch.purchasePrice.GetOr(lot.purchasePrice),
      quantity := patch.quantity.GetOr(lot.quantity),
      sellPrice := if patch.updateSell && patch.sellPrice.Some? then patch.sellPrice else lot.sellPrice,
      sellDate := if patch.updateSell && patch.sellDate.Some? then patch.sellDate else lot.sellDate)
  }

  /** A purchase lot as the program holds it: an object whose fields the edit workflow updates in place. */
  class StockEntry {
    var name: string
    var purchaseDate: string
    var purchasePrice: real
    var quantity: int
    var sellPrice: Option<real>
    var sellDate: Option<string>

    /** The current contents of the six fields. */
    function Value(): Lot
      reads this
    {
      Lot(name, purchaseDate, purchasePrice, quantity, sellPrice, sellDate)
    }

    /** A new lot is open: it has neither a sell price nor a sell date. */
    constructor (name: string, purchaseDate: string, purchasePrice: real, quantity: int)
      ensures Value() == Lot(name, purchaseDate, purchasePrice, quantity, None, None)
    {
      this.name := name;
      this.purchaseDate := purchaseDate;
      this.purchasePrice := purchasePrice;
      this.quantity := quantity;
      this.sellPrice := None;
      this.sellDate := None;
    }

    /** Records the sale of the lot; the purchase fields stay as they were. */
    method SetSellData(sellPrice: real, sellDate: string)
      modifies this
      ensures Value() == old(Value()).(sellPrice := Some(sellPrice), sellDate := Some(sellDate))
    {
      this.sellPrice := Some(sellPrice);
      this.sellDate := Some(sellDate);
    }

    /** Overwrites the fields one after another with the patched values; the symbol is never edited. */
    method ApplyPatch(patch: Patch)
      requires patch.FitsOn(Value())
      modifies this
      ensures Value() == Merge(old(Value()), patch)
    {
      purchaseDate := patch.purchaseDate.GetOr(purchaseDate);
      purchasePrice := patch.purchasePrice.GetOr(purchasePrice);
      quantity := patch.quantity.GetOr(quantity);
      if patch.updateSell {
        if patch.sellPrice.Some? {
          sellPrice := patch.sellPrice;
        }
        if patch.sellDate.Some? {
          sellDate := patch.sellDate;
        }
      }
    }
  }

  /** The values of a list of entries, position by position. */
  function Snapshot(entries: seq<StockEntry>): (r: seq<Lot>)
    reads entries
    ensures |r| == |entries|
    ensures forall i :: 0 <= i < |entries| ==> r[i] == entries[i].Value()
  {
    seq(|entries|, i reads entries requires 0 <= i < |entries| => entries[i].Value())
  }

  /** Appending an entry appends its lot. */
  lemma SnapshotSnoc(entries: seq<StockEntry>, e: StockEntry)
    ensures Snapshot(entries + [e]) == Snapshot(entries) + [e.Value()]
  {
    assert forall i :: 0 <= i < |entries| ==> (entries + [e])[i] == entries[i];
  }

  /** A second edit with the same patch changes nothing more. */
  lemma MergeIdempotent(lot: Lot, patch: Patch)
    requires patch.FitsOn(lot)
    ensures Merge(Merge(lot, patch), patch) == Merge(lot, patch)
  {
  }
}
