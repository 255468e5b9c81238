/**
 * The arithmetic of one report row and of the totals row of
 * `calculate_insights`, on exact reals.
 */
module Figures {

  /**
   * Rounding to two decimal places as Python's `round(x, 2)` and `:.2f` do it:
   * to the nearest hundredth, a tie going to the even hundredth.
   */
  function Round2(x: real): (r: real)
    ensures -0.005 <= r - x <= 0.005
    ensures (r * 100.0).Floor as real == r * 100.0
    ensures x * 100.0 - (x * 100.0).Floor as real == 0.5 ==> (r * 100.0).Floor % 2 == 0
  {
    var y := x * 100.0;
    var f := y.Floor;
    var d := y - f as real;
    var n := if d < 0.5 then f else if d > 0.5 then f + 1 else if f % 2 == 0 then f else f + 1;
    n as real / 100.0
  }

  /** Weighted-average purchase price of a group, 0 when it holds no shares. */
  function Average(cost: real, quantity: int): (r: real)
    ensures quantity > 0 ==> r * quantity as real == cost
    ensures quantity <= 0 ==> r == 0.0
  {
    if quantity > 0 then cost / quantity as real else 0.0
  }

  /** Gain or loss as a percentage of `base`, rounded to two places; 0 instead of a division by zero. */
  function Percent(gainLoss: real, base: real): (r: real)
    ensures base == 0.0 ==> r == 0.0
    ensures base != 0.0 ==> -0.005 <= r - gainLoss / base * 100.0 <= 0.005
  {
    Round2(if base != 0.0 then gainLoss / base * 100.0 else 0.0)
  }

  /** Where the current price stands against the average purchase price (the colour of the price cell). */
  datatype Signal = Above | Below | Even

  /**
   * One row of the report. The displayed columns are symbol, quantity,
   * average, price, gain/loss, gain/loss %, the two targets and the booked
   * profit; `cost` and `value` are the group's purchase cost and current
   * value, which feed the totals.
   */
  datatype Row = Row(
    symbol: string,
    quantity: int,
    average: real,
    price: real,
    gainLoss: real,
    percent: real,
    sellTarget: real,
    buyTarget: real,
    realised: real,
    signal: Signal,
    cost: real,
    value: real)

  /**
   * The row of a priced group with purchase cost `cost`, `quantity` shares and
   * booked profit `realised`: what each column means in terms of those and the price.
   */
  function MakeRow(symbol: string, cost: real, quantity: int, realised: real, price: real): (r: Row)
    ensures r.symbol == symbol && r.quantity == quantity && r.price == price
    ensures r.cost == cost && r.realised == realised
    ensures r.value == price * quantity as real && r.gainLoss == r.value - cost
    ensures quantity > 0 ==> r.average * quantity as real == cost
    ensures quantity <= 0 ==> r.average == 0.0
    ensures cost == 0.0 ==> r.percent == 0.0
    ensures cost != 0.0 ==> -0.005 <= r.percent - r.gainLoss / cost * 100.0 <= 0.005
    ensures r.sellTarget == r.average * 1.30 && r.buyTarget == r.average * 0.95
    ensures r.signal == Above <==> r.average < price
    ensures r.signal == Below <==> r.average > price
  {
    var average := Average(cost, quantity);
    var value := price * quantity as real;
    var gainLoss := value - cost;
    Row(symbol, quantity, average, price, gainLoss, Percent(gainLoss, cost),
        average * 1.30, average * 0.95, realised,
        if average < price then Above else if average > price then Below else Even,
        cost, value)
  }

  /** The totals row: shares, investment, current value, gain/loss and its percentage. */
  datatype Totals = Totals(quantity: int, investment: real, currentValue: real, gainLoss: real, percent: real)

  function SumCost(rows: seq<Row>): real {
    if rows == [] then 0.0 else SumCost(rows[..|rows| - 1]) + rows[|rows| - 1].cost
  }

  function SumValue(rows: seq<Row>): real {
    if rows == [] then 0.0 else SumValue(rows[..|rows| - 1]) + rows[|rows| - 1].value
  }

  function SumQuantity(rows: seq<Row>): int {
    if rows == [] then 0 else SumQuantity(rows[..|rows| - 1]) + rows[|rows| - 1].quantity
  }

  /** Appending a row adds its cost, value and share count to the sums. */
  lemma SumsSnoc(rows: seq<Row>, row: Row)
    ensures SumCost(rows + [row]) == SumCost(rows) + row.cost
    ensures SumValue(rows + [row]) == SumValue(rows) + row.value
    ensures SumQuantity(rows + [row]) == SumQuantity(rows) + row.quantity
  {
    assert (rows + [row])[..|rows|] == rows;
  }

  /** The totals over the reported rows; the percentage is guarded against a zero investment. */
  function TotalsOf(rows: seq<Row>): (t: Totals)
    ensures t.investment == SumCost(rows) && t.currentValue == SumValue(rows) && t.quantity == SumQuantity(rows)
    ensures t.gainLoss == t.currentValue - t.investment
    ensures t.investment == 0.0 ==> t.percent == 0.0
    ensures t.investment != 0.0 ==> -0.005 <= t.percent - t.gainLoss / t.investment * 100.0 <= 0.005
  {
    var investment := SumCost(rows);
    var currentValue := SumValue(rows);
    Totals(SumQuantity(rows), investment, currentValue, currentValue - investment,
           Percent(currentValue - investment, investment))
  }

  /** A line of the printed table: a ranked row, or the totals row whose rank is "-". */
  datatype Line = Ranked(rank: nat, row: Row) | TotalLine(totals: Totals)
}
