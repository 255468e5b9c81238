/**
 * The tail of `calculate_insights`: the rows are sorted by their rounded
 * gain/loss percentage, largest first, with Python's stable `sorted`, and
 * numbered from 1.
 */
module Ranking {
  import opened Figures

  /** Percentages never increase along `rows`. */
  predicate Descending(rows: seq<Row>) {
    forall i, j :: 0 <= i < j < |rows| ==> rows[i].percent >= rows[j].percent
  }

  /** The rows whose percentage is `v`, in their order. */
  function WithPercent(rows: seq<Row>, v: real): seq<Row> {
    if rows == [] then []
    else (if rows[0].percent == v then [rows[0]] else []) + WithPercent(rows[1..], v)
  }

  /** Inserts `x` before the first row whose percentage is not larger than its own. */
  function Insert(x: Row, s: seq<Row>): (r: seq<Row>)
    ensures multiset(r) == multiset(s) + multiset{x}
  {
    if s == [] then [x]
    else if s[0].percent <= x.percent then [x] + s
    else
      assert s == [s[0]] + s[1..];
      [s[0]] + Insert(x, s[1..])
  }

  /** In a descending list the first row is at least as large as every later one. */
  lemma HeadBoundsTail(s: seq<Row>)
    requires Descending(s) && s != []
    ensures forall r :: r in s[1..] ==> s[0].percent >= r.percent
  {
    forall r | r in s[1..] ensures s[0].percent >= r.percent {
      var m :| 0 <= m < |s[1..]| && s[1..][m] == r;
      assert s[m + 1] == r;
    }
  }

  /** Inserting a row no larger than a bound into rows no larger than it keeps every row within the bound. */
  lemma InsertBounded(x: Row, s: seq<Row>, bound: real)
    requires bound >= x.percent
    requires forall r :: r in s ==> bound >= r.percent
    ensures forall r :: r in Insert(x, s) ==> bound >= r.percent
  {
    forall r | r in Insert(x, s) ensures bound >= r.percent {
      assert r in multiset(Insert(x, s));
    }
  }

  /** A row at least as large as every row of a descending list can go in front of it. */
  lemma ConsDescending(h: Row, rest: seq<Row>)
    requires Descending(rest)
    requires forall r :: r in rest ==> h.percent >= r.percent
    ensures Descending([h] + rest)
  {
    var t := [h] + rest;
    forall i, j | 0 <= i < j < |t| ensures t[i].percent >= t[j].percent {
      assert t[j] == rest[j - 1];
      if i > 0 {
        assert t[i] == rest[i - 1];
      }
    }
  }

  lemma {:induction false} InsertKeepsDescending(x: Row, s: seq<Row>)
    requires Descending(s)
    ensures Descending(Insert(x, s))
  {
    if s != [] && s[0].percent > x.percent {
      InsertKeepsDescending(x, s[1..]);
      HeadBoundsTail(s);
      InsertBounded(x, s[1..], s[0].percent);
      ConsDescending(s[0], Insert(x, s[1..]));
    }
  }

  lemma WithPercentCons(y: Row, s: seq<Row>, v: real)
    ensures WithPercent([y] + s, v) == (if y.percent == v then [y] else []) + WithPercent(s, v)
  {
    assert ([y] + s)[1..] == s;
  }

  /** Moving `x` behind a row of larger percentage leaves the rows of each percentage in order. */
  lemma PassLarger(x: Row, y: Row, t: seq<Row>, rest: seq<Row>, v: real)
    requires y.percent > x.percent
    requires WithPercent(rest, v) == WithPercent([x] + t, v)
    ensures WithPercent([y] + rest, v) == WithPercent([x] + ([y] + t), v)
  {
    var xs: seq<Row> := if x.percent == v then [x] else [];
    var ys: seq<Row> := if y.percent == v then [y] else [];
    var w := WithPercent(t, v);
    WithPercentCons(y, rest, v);
    WithPercentCons(x, t, v);
    WithPercentCons(y, t, v);
    WithPercentCons(x, [y] + t, v);
    if xs == [] {
      assert ys + ([] + w) == [] + (ys + w);
    } else {
      assert ys == [];
      assert [] + (xs + w) == xs + ([] + w);
    }
  }

  /** The step of `InsertIsStable` where `x` moves past the first row. */
  lemma PassHead(x: Row, s: seq<Row>, v: real)
    requires s != [] && s[0].percent > x.percent
    requires WithPercent(Insert(x, s[1..]), v) == WithPercent([x] + s[1..], v)
    ensures WithPercent(Insert(x, s), v) == WithPercent([x] + s, v)
  {
    var rest := Insert(x, s[1..]);
    assert Insert(x, s) == [s[0]] + rest;
    assert s == [s[0]] + s[1..];
    PassLarger(x, s[0], s[1..], rest, v);
  }

  /** `x` lands after no row of its own percentage, so rows of equal percentage keep their order. */
  lemma {:induction false} InsertIsStable(x: Row, s: seq<Row>, v: real)
    ensures WithPercent(Insert(x, s), v) == WithPercent([x] + s, v)
  {
    if s == [] {
      assert [x] + s == [x];
    } else if s[0].percent > x.percent {
      InsertIsStable(x, s[1..], v);
      PassHead(x, s, v);
    } else {
      assert Insert(x, s) == [x] + s;
    }
  }

  /**
   * `sorted(rows, key=percent, reverse=True)`: largest percentage first, rows
   * with equal percentages in their original order.
   */
  function SortByPercent(rows: seq<Row>): (r: seq<Row>)
    ensures Descending(r)
    ensures multiset(r) == multiset(rows)
    ensures forall v :: WithPercent(r, v) == WithPercent(rows, v)
  {
    if rows == [] then []
    else
      var sorted := SortByPercent(rows[1..]);
      assert rows == [rows[0]] + rows[1..];
      InsertKeepsDescending(rows[0], sorted);
      assert forall v :: WithPercent(Insert(rows[0], sorted), v) == WithPercent(rows, v) by {
        forall v ensures WithPercent(Insert(rows[0], sorted), v) == WithPercent(rows, v) {
          InsertIsStable(rows[0], sorted, v);
          WithPercentCons(rows[0], sorted, v);
          WithPercentCons(rows[0], rows[1..], v);
        }
      }
      Insert(rows[0], sorted)
  }

  /** Numbers the rows: the row at position i gets serial number i + 1. */
  function Rank(rows: seq<Row>): (r: seq<Line>)
    ensures |r| == |rows|
    ensures forall i :: 0 <= i < |rows| ==> r[i] == Ranked(i + 1, rows[i])
  {
    seq(|rows|, i requires 0 <= i < |rows| => Ranked(i + 1, rows[i]))
  }

  /** The serial numbers are n distinct numbers between 1 and n, in increasing order: exactly 1, 2, ..., n. */
  lemma RanksRunFromOne(rows: seq<Row>)
    ensures forall i :: 0 <= i < |rows| ==> 1 <= Rank(rows)[i].rank <= |rows|
    ensures forall i, j :: 0 <= i < j < |rows| ==> Rank(rows)[i].rank < Rank(rows)[j].rank
  {
  }
}
