/**
 The tables both reservation services work on: requested lines, hold rows and
 per-item integer columns, with the totals the invariants speak about.
 */
module Holds {
  import opened Sums

  type ItemId = nat
  type InvoiceId = nat
  type Time = int

  datatype Status = Held | Committed | Released | Paid

  /** One validated line: the services reject a quantity below one before they reach the database. */
  datatype Line = Line(item: ItemId, qty: nat)

  datatype Row = Row(invoice: InvoiceId, item: ItemId, qty: nat, expiresAt: Time, status: Status)

  /** `line_items` after normalisation: not empty, every quantity positive. */
  predicate Normalized(lines: seq<Line>)
  {
    lines != [] && forall k :: 0 <= k < |lines| ==> lines[k].qty > 0
  }

  predicate DistinctItems(lines: seq<Line>)
  {
    forall j, k :: 0 <= j < k < |lines| ==> lines[j].item != lines[k].item
  }

  function Get(m: map<ItemId, int>, i: ItemId): int
  {
    if i in m then m[i] else 0
  }

  ghost function QtyOf(i: ItemId): Line -> int
  {
    (l: Line) => if l.item == i then l.qty else 0
  }

  /** What `lines` ask of item `i` in total. */
  ghost function LineTotal(lines: seq<Line>, i: ItemId): int
  {
    Sum(lines, QtyOf(i))
  }

  ghost function QtyIn(i: ItemId, st: Status): Row -> int
  {
    (r: Row) => if r.item == i && r.status == st then r.qty else 0
  }

  /** Total quantity of item `i` in rows of status `st`. */
  ghost function InStatus(rows: seq<Row>, i: ItemId, st: Status): int
  {
    Sum(rows, QtyIn(i, st))
  }

  function RowOf(inv: InvoiceId, line: Line, expiresAt: Time): Row
  {
    Row(inv, line.item, line.qty, expiresAt, Held)
  }

  function NewRows(inv: InvoiceId, lines: seq<Line>, expiresAt: Time): (rows: seq<Row>)
    ensures |rows| == |lines|
    ensures forall k :: 0 <= k < |lines| ==> rows[k] == RowOf(inv, lines[k], expiresAt)
  {
    seq(|lines|, k requires 0 <= k < |lines| => RowOf(inv, lines[k], expiresAt))
  }

  function Mark(rows: seq<Row>, ids: set<nat>, st: Status): (marked: seq<Row>)
    ensures |marked| == |rows|
    ensures forall k :: 0 <= k < |rows| ==> marked[k] == if k in ids then rows[k].(status := st) else rows[k]
  {
    seq(|rows|, k requires 0 <= k < |rows| => if k in ids then rows[k].(status := st) else rows[k])
  }

  /** Total quantity of item `i` in the rows named by `ids`. */
  ghost function ChosenTotal(rows: seq<Row>, ids: set<nat>, i: ItemId): int
  {
    if rows == [] then 0
    else
      var n := |rows| - 1;
      ChosenTotal(rows[..n], ids, i) + if n in ids && rows[n].item == i then rows[n].qty else 0
  }

  ghost function RowItems(rows: seq<Row>, ids: set<nat>): set<ItemId>
  {
    set r | r in ids && r < |rows| :: rows[r].item
  }

  lemma LineTotalNonNegative(lines: seq<Line>, i: ItemId)
    ensures LineTotal(lines, i) >= 0
  {
    SumNonNegative(lines, QtyOf(i));
  }

  lemma LineTotalSnoc(lines: seq<Line>, k: nat, i: ItemId)
    requires k < |lines|
    ensures LineTotal(lines[..k + 1], i) == LineTotal(lines[..k], i) + if lines[k].item == i then lines[k].qty else 0
  {
    assert lines[..k + 1] == lines[..k] + [lines[k]];
    SumSnoc(lines[..k], lines[k], QtyOf(i));
  }

  lemma LineTotalHead(lines: seq<Line>, i: ItemId)
    requires lines != []
    ensures LineTotal(lines, i) == (if lines[0].item == i then lines[0].qty else 0) + LineTotal(lines[1..], i)
  {
    assert lines == [lines[0]] + lines[1..];
    SumCons(lines[0], lines[1..], QtyOf(i));
  }

  lemma LineTotalAbsent(lines: seq<Line>, i: ItemId)
    requires forall k :: 0 <= k < |lines| ==> lines[k].item != i
    ensures LineTotal(lines, i) == 0
  {
    SumZero(lines, QtyOf(i));
  }

  lemma LineTotalAtLeast(lines: seq<Line>, k: nat)
    requires k < |lines|
    ensures lines[k].qty <= LineTotal(lines, lines[k].item)
  {
    SumAtLeast(lines, k, QtyOf(lines[k].item));
  }

  /** With distinct items the total of an item is the quantity of its only line. */
  lemma {:induction false} LineTotalDistinct(lines: seq<Line>, k: nat)
    requires DistinctItems(lines) && k < |lines|
    ensures LineTotal(lines, lines[k].item) == lines[k].qty
  {
    var i := lines[k].item;
    assert lines == lines[..k] + ([lines[k]] + lines[k + 1..]);
    SumAppend(lines[..k], [lines[k]] + lines[k + 1..], QtyOf(i));
    SumCons(lines[k], lines[k + 1..], QtyOf(i));
    LineTotalAbsent(lines[..k], i);
    LineTotalAbsent(lines[k + 1..], i);
  }

  lemma InStatusNonNegative(rows: seq<Row>, i: ItemId, st: Status)
    ensures InStatus(rows, i, st) >= 0
  {
    SumNonNegative(rows, QtyIn(i, st));
  }

  lemma NewRowsTotals(rows: seq<Row>, inv: InvoiceId, lines: seq<Line>, expiresAt: Time, i: ItemId, st: Status)
    ensures InStatus(rows + NewRows(inv, lines, expiresAt), i, st)
         == InStatus(rows, i, st) + if st == Held then LineTotal(lines, i) else 0
  {
    var added := NewRows(inv, lines, expiresAt);
    SumAppend(rows, added, QtyIn(i, st));
    if st == Held {
      SumEqual(added, QtyIn(i, st), lines, QtyOf(i));
    } else {
      SumZero(added, QtyIn(i, st));
    }
  }

  lemma {:induction false} ChosenNonNegative(rows: seq<Row>, ids: set<nat>, i: ItemId)
    ensures ChosenTotal(rows, ids, i) >= 0
  {
    if rows != [] {
      ChosenNonNegative(rows[..|rows| - 1], ids, i);
    }
  }

  lemma MarkPrefix(rows: seq<Row>, ids: set<nat>, to: Status, n: nat)
    requires n <= |rows|
    ensures Mark(rows, ids, to)[..n] == Mark(rows[..n], ids, to)
  {
  }

  /** Taking held rows out of HELD moves exactly their quantity to the new status. */
  lemma {:induction false} MarkTotals(rows: seq<Row>, ids: set<nat>, to: Status, i: ItemId, st: Status)
    requires to != Held
    requires forall k :: k in ids && k < |rows| ==> rows[k].status == Held
    ensures InStatus(Mark(rows, ids, to), i, st)
         == InStatus(rows, i, st)
            + (if st == to then ChosenTotal(rows, ids, i) else 0) - (if st == Held then ChosenTotal(rows, ids, i) else 0)
  {
    if rows != [] {
      var n := |rows| - 1;
      var marked := Mark(rows, ids, to);
      MarkTotals(rows[..n], ids, to, i, st);
      MarkPrefix(rows, ids, to, n);
      SumLast(marked, QtyIn(i, st));
      SumLast(rows, QtyIn(i, st));
    }
  }

  lemma ChosenWithinHeld(rows: seq<Row>, ids: set<nat>, i: ItemId)
    requires forall k :: k in ids && k < |rows| ==> rows[k].status == Held
    ensures 0 <= ChosenTotal(rows, ids, i) <= InStatus(rows, i, Held)
  {
    ChosenNonNegative(rows, ids, i);
    MarkTotals(rows, ids, Released, i, Held);
    InStatusNonNegative(Mark(rows, ids, Released), i, Held);
  }

  lemma {:induction false} ChosenNothing(rows: seq<Row>, ids: set<nat>, i: ItemId)
    requires forall k :: k in ids && k < |rows| ==> rows[k].item != i
    ensures ChosenTotal(rows, ids, i) == 0
  {
    if rows != [] {
      ChosenNothing(rows[..|rows| - 1], ids, i);
    }
  }

  lemma {:induction false} ChosenOneMore(rows: seq<Row>, ids: set<nat>, r: nat, i: ItemId)
    requires r < |rows| && r !in ids
    ensures ChosenTotal(rows, ids + {r}, i) == ChosenTotal(rows, ids, i) + if rows[r].item == i then rows[r].qty else 0
  {
    var n := |rows| - 1;
    if r < n {
      ChosenOneMore(rows[..n], ids, r, i);
    } else {
      ChosenSame(rows[..n], ids, ids + {r}, i);
    }
  }

  lemma {:induction false} ChosenSame(rows: seq<Row>, a: set<nat>, b: set<nat>, i: ItemId)
    requires forall k :: 0 <= k < |rows| ==> (k in a <==> k in b)
    ensures ChosenTotal(rows, a, i) == ChosenTotal(rows, b, i)
  {
    if rows != [] {
      ChosenSame(rows[..|rows| - 1], a, b, i);
    }
  }

  /** Rows appended later do not change what earlier rows amount to. */
  lemma {:induction false} ChosenPrefix(rows: seq<Row>, more: seq<Row>, ids: set<nat>, i: ItemId)
    requires forall k :: k in ids ==> k < |rows|
    ensures ChosenTotal(rows + more, ids, i) == ChosenTotal(rows, ids, i)
  {
    if more == [] {
      assert rows + more == rows;
    } else {
      ChosenPrefix(rows, more[..|more| - 1], ids, i);
      assert (rows + more)[..|rows + more| - 1] == rows + more[..|more| - 1];
    }
  }
}
