/**
 The conditional-decrement reservation service: stock leaves `items.quantity_available` when a
 hold is taken and comes back when the hold expires unpaid.  Operations run one at a time here;
 HoldConcurrency has them interleave statement by statement.
 */
module HoldLedger {
  import opened Sums
  import opened Holds
  import opened Outcomes
  import opened Picking

  /** Both tables.  `active` are the items whose `is_active` flag is set. */
  datatype Db = Db(stock: map<ItemId, int>, active: set<ItemId>, rows: seq<Row>)

  datatype Shortfall = Shortfall(item: ItemId, requested: nat, available: int)

  /** `_decrement_stock_if_available` finds a row to update. */
  predicate CanTake(stock: map<ItemId, int>, active: set<ItemId>, line: Line)
  {
    line.item in stock && line.item in active && stock[line.item] >= line.qty
  }

  /** `_fetch_available_qty`: what the error message reports. */
  function Reported(stock: map<ItemId, int>, active: set<ItemId>, item: ItemId): int
  {
    if item in active then Get(stock, item) else 0
  }

  /** The decrement loop inside the transaction: later lines see what earlier lines took. */
  function Serve(stock: map<ItemId, int>, active: set<ItemId>, lines: seq<Line>): (map<ItemId, int>, seq<Shortfall>)
  {
    if lines == [] then (stock, [])
    else
      var n := |lines| - 1;
      var (left, missing) := Serve(stock, active, lines[..n]);
      var line := lines[n];
      if CanTake(left, active, line) then (left[line.item := left[line.item] - line.qty], missing)
      else (left, missing + [Shortfall(line.item, line.qty, Reported(left, active, line.item))])
  }

  /** The request as a whole fits: every item is on sale and covers all its lines together. */
  ghost predicate Fits(db: Db, lines: seq<Line>)
  {
    forall k :: 0 <= k < |lines| ==>
      && lines[k].item in db.stock && lines[k].item in db.active
      && LineTotal(lines, lines[k].item) <= db.stock[lines[k].item]
  }

  ghost function Deduct(stock: map<ItemId, int>, lines: seq<Line>): map<ItemId, int>
  {
    map i | i in stock :: stock[i] - LineTotal(lines, i)
  }

  function ExpiredIds(rows: seq<Row>, now: Time): set<nat>
  {
    set r | 0 <= r < |rows| && rows[r].status == Held && rows[r].expiresAt <= now
  }

  function HeldIdsOf(rows: seq<Row>, invoice: InvoiceId): set<nat>
  {
    set r | 0 <= r < |rows| && rows[r].status == Held && rows[r].invoice == invoice
  }

  ghost function Restock(stock: map<ItemId, int>, rows: seq<Row>, ids: set<nat>): map<ItemId, int>
  {
    map i | i in stock :: stock[i] + ChosenTotal(rows, ids, i)
  }

  ghost function Reserved(db: Db, invoice: InvoiceId, lines: seq<Line>, expiresAt: Time): Db
  {
    if Fits(db, lines)
    then db.(stock := Deduct(db.stock, lines), rows := db.rows + NewRows(invoice, lines, expiresAt))
    else db
  }

  ghost function Swept(db: Db, now: Time): Db
  {
    var ids := ExpiredIds(db.rows, now);
    db.(stock := Restock(db.stock, db.rows, ids), rows := Mark(db.rows, ids, Released))
  }

  function MarkedPaid(db: Db, invoice: InvoiceId): Db
  {
    db.(rows := Mark(db.rows, HeldIdsOf(db.rows, invoice), Paid))
  }

  /** Stock on hand, on hold and sold: nothing else can become of a unit of item `i`. */
  ghost function Accounted(db: Db, i: ItemId): int
  {
    Get(db.stock, i) + InStatus(db.rows, i, Held) + InStatus(db.rows, i, Paid)
  }

  ghost predicate Valid(db: Db)
  {
    && (forall i :: i in db.stock ==> db.stock[i] >= 0)
    && (forall r :: 0 <= r < |db.rows| ==> db.rows[r].item in db.stock)
  }

  // ---------- serving the lines of a request ----------

  lemma DeductOneMore(stock: map<ItemId, int>, lines: seq<Line>, n: nat)
    requires n < |lines| && lines[n].item in stock
    ensures Deduct(stock, lines[..n + 1])
         == Deduct(stock, lines[..n])[lines[n].item := Deduct(stock, lines[..n])[lines[n].item] - lines[n].qty]
  {
    forall i | i in stock
      ensures LineTotal(lines[..n + 1], i) == LineTotal(lines[..n], i) + if lines[n].item == i then lines[n].qty else 0
    {
      LineTotalSnoc(lines, n, i);
    }
  }

  lemma {:induction false} ServeKeepsItems(db: Db, lines: seq<Line>)
    ensures Serve(db.stock, db.active, lines).0.Keys == db.stock.Keys
  {
    if lines != [] {
      ServeKeepsItems(db, lines[..|lines| - 1]);
    }
  }

  /** While nothing is missing, what is left is the stock minus everything asked for so far. */
  lemma {:induction false} ServeTakesTotals(db: Db, lines: seq<Line>)
    requires Serve(db.stock, db.active, lines).1 == []
    ensures Serve(db.stock, db.active, lines).0 == Deduct(db.stock, lines)
    ensures forall k :: 0 <= k < |lines| ==> lines[k].item in db.stock && lines[k].item in db.active
  {
    if lines == [] {
      assert Deduct(db.stock, lines) == db.stock;
    } else {
      var n := |lines| - 1;
      ServeTakesTotals(db, lines[..n]);
      assert lines[..n + 1] == lines;
      DeductOneMore(db.stock, lines, n);
      forall k | 0 <= k < n ensures lines[k] == lines[..n][k] {}
    }
  }

  lemma {:induction false} ServeLeavesNoDebt(db: Db, lines: seq<Line>)
    requires forall i :: i in db.stock ==> db.stock[i] >= 0
    ensures forall i :: i in Serve(db.stock, db.active, lines).0 ==> Serve(db.stock, db.active, lines).0[i] >= 0
  {
    if lines != [] {
      ServeLeavesNoDebt(db, lines[..|lines| - 1]);
    }
  }

  /** A request that fits as a whole fits line by line. */
  lemma {:induction false} FitsIsServed(db: Db, lines: seq<Line>, n: nat)
    requires n <= |lines| && Fits(db, lines)
    ensures Serve(db.stock, db.active, lines[..n]).1 == []
  {
    if n > 0 {
      FitsIsServed(db, lines, n - 1);
      assert lines[..n][..n - 1] == lines[..n - 1];
      var line := lines[n - 1];
      ServeTakesTotals(db, lines[..n - 1]);
      LineTotalSnoc(lines, n - 1, line.item);
      assert lines == lines[..n] + lines[n..];
      SumAppend(lines[..n], lines[n..], QtyOf(line.item));
      LineTotalNonNegative(lines[n..], line.item);
    }
  }

  /**
   All or nothing, also for an invoice that lists the same item several times: no line is
   reported missing exactly when every item covers the sum of its lines.
   */
  lemma {:induction false} ServedExactlyWhenFits(db: Db, lines: seq<Line>)
    requires Valid(db)
    ensures Serve(db.stock, db.active, lines).1 == [] <==> Fits(db, lines)
    ensures Fits(db, lines) ==> Serve(db.stock, db.active, lines).0 == Deduct(db.stock, lines)
  {
    ServeLeavesNoDebt(db, lines);
    if Fits(db, lines) {
      FitsIsServed(db, lines, |lines|);
      assert lines[..|lines|] == lines;
      ServeTakesTotals(db, lines);
    } else if Serve(db.stock, db.active, lines).1 == [] {
      var left := Serve(db.stock, db.active, lines).0;
      ServeTakesTotals(db, lines);
      forall k | 0 <= k < |lines| ensures LineTotal(lines, lines[k].item) <= db.stock[lines[k].item] {
        assert left[lines[k].item] >= 0;
      }
    }
  }

  // ---------- what a failure reports ----------

  /** What the lines before line `k`, those in `missing` left out, take of item `i`. */
  ghost function TakenBefore(lines: seq<Line>, missing: set<nat>, k: nat, i: ItemId): int
    requires k <= |lines|
  {
    if k == 0 then 0
    else TakenBefore(lines, missing, k - 1, i) + if k - 1 !in missing && lines[k - 1].item == i then lines[k - 1].qty else 0
  }

  /** What is left for line `k`: nothing of an item that is unknown or not on sale. */
  ghost function LeftFor(db: Db, lines: seq<Line>, missing: set<nat>, k: nat): int
    requires k < |lines|
  {
    var i := lines[k].item;
    if i in db.stock && i in db.active then db.stock[i] - TakenBefore(lines, missing, k, i) else 0
  }

  /** Line `k` is not served. */
  ghost predicate FallsShort(db: Db, lines: seq<Line>, missing: set<nat>, k: nat)
    requires k < |lines|
  {
    lines[k].item !in db.stock || lines[k].item !in db.active || LeftFor(db, lines, missing, k) < lines[k].qty
  }

  /** `missing` are the lines for which the lines served before them left too little. */
  ghost predicate MissingLines(db: Db, lines: seq<Line>, missing: set<nat>)
  {
    && (forall k :: k in missing ==> k < |lines|)
    && forall k {:trigger FallsShort(db, lines, missing, k)} :: 0 <= k < |lines| ==>
         (k in missing <==> FallsShort(db, lines, missing, k))
  }

  /** The report names the lines `from`, with what was left for each. */
  ghost predicate Reports(db: Db, lines: seq<Line>, missing: set<nat>, from: seq<nat>, report: seq<Shortfall>)
  {
    && |report| == |from|
    && forall j :: 0 <= j < |from| ==>
         && from[j] < |lines|
         && report[j] == Shortfall(lines[from[j]].item, lines[from[j]].qty, LeftFor(db, lines, missing, from[j]))
  }

  /** What is taken before line `k` depends on the lines before it only. */
  lemma {:induction false} TakenByPrefix(lines: seq<Line>, missing: set<nat>, more: set<nat>, n: nat, k: nat, i: ItemId)
    requires k <= n <= |lines| && forall j :: 0 <= j < n ==> (j in missing <==> j in more)
    ensures TakenBefore(lines[..n], missing, k, i) == TakenBefore(lines, more, k, i)
  {
    if k > 0 {
      TakenByPrefix(lines, missing, more, n, k - 1, i);
    }
  }

  lemma {:induction false} TakenAgrees(lines: seq<Line>, one: set<nat>, two: set<nat>, k: nat, i: ItemId)
    requires k <= |lines| && forall j :: 0 <= j < k ==> (j in one <==> j in two)
    ensures TakenBefore(lines, one, k, i) == TakenBefore(lines, two, k, i)
  {
    if k > 0 {
      TakenAgrees(lines, one, two, k - 1, i);
    }
  }

  lemma {:induction false} MissingAgree(db: Db, lines: seq<Line>, one: set<nat>, two: set<nat>, k: nat)
    requires MissingLines(db, lines, one) && MissingLines(db, lines, two) && k < |lines|
    ensures k in one <==> k in two
  {
    forall j: nat | j < k ensures j in one <==> j in two {
      MissingAgree(db, lines, one, two, j);
    }
    TakenAgrees(lines, one, two, k, lines[k].item);
    assert FallsShort(db, lines, one, k) <==> FallsShort(db, lines, two, k);
  }

  /** There is one such set: whether a line is missing is settled by the lines before it. */
  lemma MissingIsUnique(db: Db, lines: seq<Line>, one: set<nat>, two: set<nat>)
    requires MissingLines(db, lines, one) && MissingLines(db, lines, two)
    ensures one == two
  {
    forall k: nat | k < |lines| ensures k in one <==> k in two {
      MissingAgree(db, lines, one, two, k);
    }
  }

  lemma MissingByPrefix(db: Db, lines: seq<Line>, missing: set<nat>, more: set<nat>, from: seq<nat>, report: seq<Shortfall>)
    requires lines != [] && MissingLines(db, lines[..|lines| - 1], missing)
    requires Reports(db, lines[..|lines| - 1], missing, from, report)
    requires more == missing || more == missing + {|lines| - 1}
    ensures forall k {:trigger FallsShort(db, lines, more, k)} :: 0 <= k < |lines| - 1 ==>
      (k in more <==> FallsShort(db, lines, more, k))
    ensures Reports(db, lines, more, from, report)
  {
    var n := |lines| - 1;
    forall k | 0 <= k < n
      ensures LeftFor(db, lines, more, k) == LeftFor(db, lines[..n], missing, k)
      ensures k in more <==> FallsShort(db, lines, more, k)
    {
      TakenByPrefix(lines, missing, more, n, k, lines[k].item);
      assert k in missing <==> FallsShort(db, lines[..n], missing, k);
    }
  }

  ghost function LeftAfter(db: Db, lines: seq<Line>, missing: set<nat>): map<ItemId, int>
  {
    map i | i in db.stock :: db.stock[i] - TakenBefore(lines, missing, |lines|, i)
  }

  lemma LeftOneMore(db: Db, lines: seq<Line>, missing: set<nat>, more: set<nat>)
    requires lines != [] && forall j :: 0 <= j < |lines| - 1 ==> (j in missing <==> j in more)
    ensures forall i :: i in db.stock ==>
      TakenBefore(lines[..|lines| - 1], missing, |lines| - 1, i) == TakenBefore(lines, more, |lines| - 1, i)
  {
    forall i | i in db.stock
      ensures TakenBefore(lines[..|lines| - 1], missing, |lines| - 1, i) == TakenBefore(lines, more, |lines| - 1, i)
    {
      TakenByPrefix(lines, missing, more, |lines| - 1, |lines| - 1, i);
    }
  }

  /** `missing` and `from` explain what the loop has left over and reported. */
  ghost predicate Explains(db: Db, lines: seq<Line>, missing: set<nat>, from: seq<nat>,
                           left: map<ItemId, int>, report: seq<Shortfall>)
  {
    && MissingLines(db, lines, missing) && Picks(from, missing)
    && Reports(db, lines, missing, from, report) && left == LeftAfter(db, lines, missing)
  }

  lemma LineTaken(db: Db, lines: seq<Line>, missing: set<nat>)
    requires lines != [] && |lines| - 1 !in missing
    requires CanTake(LeftAfter(db, lines[..|lines| - 1], missing), db.active, lines[|lines| - 1])
    ensures var left, line := LeftAfter(db, lines[..|lines| - 1], missing), lines[|lines| - 1];
            LeftAfter(db, lines, missing) == left[line.item := left[line.item] - line.qty]
    ensures !FallsShort(db, lines, missing, |lines| - 1)
  {
    LeftOneMore(db, lines, missing, missing);
  }

  lemma LineServed(db: Db, lines: seq<Line>, missing: set<nat>, from: seq<nat>, left: map<ItemId, int>,
                   report: seq<Shortfall>, after: map<ItemId, int>)
    requires lines != [] && Explains(db, lines[..|lines| - 1], missing, from, left, report)
    requires CanTake(left, db.active, lines[|lines| - 1])
    requires var line := lines[|lines| - 1]; after == left[line.item := left[line.item] - line.qty]
    ensures Explains(db, lines, missing, from, after, report)
  {
    MissingByPrefix(db, lines, missing, missing, from, report);
    LineTaken(db, lines, missing);
  }

  lemma NothingTaken(db: Db, lines: seq<Line>, missing: set<nat>)
    requires lines != []
    requires !CanTake(LeftAfter(db, lines[..|lines| - 1], missing), db.active, lines[|lines| - 1])
    ensures var n, more := |lines| - 1, missing + {|lines| - 1};
            var left := LeftAfter(db, lines[..n], missing);
            && LeftAfter(db, lines, more) == left && FallsShort(db, lines, more, n)
            && LeftFor(db, lines, more, n) == Reported(left, db.active, lines[n].item)
  {
    LeftOneMore(db, lines, missing, missing + {|lines| - 1});
  }

  lemma ReportOneMore(db: Db, lines: seq<Line>, missing: set<nat>, from: seq<nat>, report: seq<Shortfall>, n: nat)
    requires Reports(db, lines, missing, from, report) && n < |lines|
    ensures Reports(db, lines, missing, from + [n],
                    report + [Shortfall(lines[n].item, lines[n].qty, LeftFor(db, lines, missing, n))])
  {
  }

  lemma LineMissed(db: Db, lines: seq<Line>, missing: set<nat>, from: seq<nat>, left: map<ItemId, int>,
                   report: seq<Shortfall>, longer: seq<Shortfall>)
    requires lines != [] && Explains(db, lines[..|lines| - 1], missing, from, left, report)
    requires !CanTake(left, db.active, lines[|lines| - 1])
    requires var line := lines[|lines| - 1];
             longer == report + [Shortfall(line.item, line.qty, Reported(left, db.active, line.item))]
    ensures Explains(db, lines, missing + {|lines| - 1}, from + [|lines| - 1], left, longer)
  {
    var n, more := |lines| - 1, missing + {|lines| - 1};
    MissingByPrefix(db, lines, missing, more, from, report);
    NothingTaken(db, lines, missing);
    ReportOneMore(db, lines, more, from, report, n);
    PickLast(from, missing, n);
  }

  lemma ServeOneMore(db: Db, lines: seq<Line>, missing: set<nat>, from: seq<nat>, left: map<ItemId, int>, report: seq<Shortfall>)
    returns (more: set<nat>, longer: seq<nat>)
    requires lines != [] && Serve(db.stock, db.active, lines[..|lines| - 1]) == (left, report)
    requires Explains(db, lines[..|lines| - 1], missing, from, left, report)
    ensures Explains(db, lines, more, longer, Serve(db.stock, db.active, lines).0, Serve(db.stock, db.active, lines).1)
  {
    var n := |lines| - 1;
    var (after, reported) := Serve(db.stock, db.active, lines);
    if CanTake(left, db.active, lines[n]) {
      LineServed(db, lines, missing, from, left, report, after);
      more, longer := missing, from;
    } else {
      LineMissed(db, lines, missing, from, left, report, reported);
      more, longer := missing + {n}, from + [n];
    }
  }

  /** The loop serves what it can and reports the other lines, each with what was left for it. */
  lemma {:induction false} ServeReports(db: Db, lines: seq<Line>) returns (missing: set<nat>, from: seq<nat>)
    ensures Explains(db, lines, missing, from, Serve(db.stock, db.active, lines).0, Serve(db.stock, db.active, lines).1)
  {
    missing, from := {}, [];
    if lines == [] {
      assert LeftAfter(db, lines, missing) == db.stock;
    } else {
      missing, from := ServeReports(db, lines[..|lines| - 1]);
      var (left, report) := Serve(db.stock, db.active, lines[..|lines| - 1]);
      missing, from := ServeOneMore(db, lines, missing, from, left, report);
    }
  }

  // ---------- conservation ----------

  lemma ReserveConserves(db: Db, invoice: InvoiceId, lines: seq<Line>, expiresAt: Time)
    requires Valid(db)
    ensures var after := Reserved(db, invoice, lines, expiresAt);
            Valid(after) && forall i: ItemId :: Accounted(after, i) == Accounted(db, i)
  {
    var after := Reserved(db, invoice, lines, expiresAt);
    if Fits(db, lines) {
      ServedExactlyWhenFits(db, lines);
      ServeLeavesNoDebt(db, lines);
      forall i: ItemId ensures Accounted(after, i) == Accounted(db, i) {
        NewRowsTotals(db.rows, invoice, lines, expiresAt, i, Held);
        NewRowsTotals(db.rows, invoice, lines, expiresAt, i, Paid);
        if i !in db.stock {
          LineTotalAbsent(lines, i);
        }
      }
    }
  }

  lemma SweepConserves(db: Db, now: Time)
    requires Valid(db)
    ensures Valid(Swept(db, now)) && forall i: ItemId :: Accounted(Swept(db, now), i) == Accounted(db, i)
  {
    var ids := ExpiredIds(db.rows, now);
    forall i: ItemId
      ensures Accounted(Swept(db, now), i) == Accounted(db, i) && ChosenTotal(db.rows, ids, i) >= 0
    {
      MarkTotals(db.rows, ids, Released, i, Held);
      MarkTotals(db.rows, ids, Released, i, Paid);
      ChosenNonNegative(db.rows, ids, i);
      if i !in db.stock {
        ChosenNothing(db.rows, ids, i);
      }
    }
  }

  lemma PayConserves(db: Db, invoice: InvoiceId)
    requires Valid(db)
    ensures Valid(MarkedPaid(db, invoice)) && forall i: ItemId :: Accounted(MarkedPaid(db, invoice), i) == Accounted(db, i)
  {
    var ids := HeldIdsOf(db.rows, invoice);
    forall i: ItemId ensures Accounted(MarkedPaid(db, invoice), i) == Accounted(db, i) {
      MarkTotals(db.rows, ids, Paid, i, Held);
      MarkTotals(db.rows, ids, Paid, i, Paid);
    }
  }

  datatype Op =
    | Reserve(invoice: InvoiceId, lines: seq<Line>, expiresAt: Time)
    | Sweep(now: Time)
    | Pay(invoice: InvoiceId)

  ghost function Do(db: Db, op: Op): Db
  {
    match op
    case Reserve(invoice, lines, expiresAt) => Reserved(db, invoice, lines, expiresAt)
    case Sweep(now) => Swept(db, now)
    case Pay(invoice) => MarkedPaid(db, invoice)
  }

  ghost function DoAll(db: Db, ops: seq<Op>): Db
    decreases |ops|
  {
    if ops == [] then db else DoAll(Do(db, ops[0]), ops[1..])
  }

  /** Over every run of the three operations. */
  lemma {:induction false} Conservation(db: Db, ops: seq<Op>)
    requires Valid(db)
    ensures Valid(DoAll(db, ops))
    ensures forall i: ItemId :: Accounted(DoAll(db, ops), i) == Accounted(db, i)
    decreases |ops|
  {
    if ops != [] {
      match ops[0] {
        case Reserve(invoice, lines, expiresAt) => ReserveConserves(db, invoice, lines, expiresAt);
        case Sweep(now) => SweepConserves(db, now);
        case Pay(invoice) => PayConserves(db, invoice);
      }
      Conservation(Do(db, ops[0]), ops[1..]);
    }
  }

  // ---------- the service object ----------

  datatype ReserveError = QuantityNotPositive | NoLines

  datatype ReserveReply = Success(reservedAt: Time, expiresAt: Time) | Failure(unavailable: seq<Shortfall>)

  ghost function InvoicesAmong(rows: seq<Row>, ids: set<nat>, n: nat): set<InvoiceId>
    requires n <= |rows|
  {
    set r | r in ids && r < n :: rows[r].invoice
  }

  lemma NextInvoice(rows: seq<Row>, ids: set<nat>, n: nat)
    requires n < |rows|
    ensures InvoicesAmong(rows, ids, n + 1) == InvoicesAmong(rows, ids, n) + if n in ids then {rows[n].invoice} else {}
  {
  }

  /** The first `n` rows have been swept. */
  ghost predicate SweptSoFar(db: Db, ids: set<nat>, n: nat, marked: seq<Row>, restocked: map<ItemId, int>, invoices: set<InvoiceId>)
    requires n <= |db.rows|
  {
    && |marked| == |db.rows|
    && (forall k :: 0 <= k < |marked| ==>
          marked[k] == if k < n && k in ids then db.rows[k].(status := Released) else db.rows[k])
    && restocked == Restock(db.stock, db.rows[..n], ids) && invoices == InvoicesAmong(db.rows, ids, n)
  }

  lemma SweepNext(db: Db, ids: set<nat>, n: nat, marked: seq<Row>, restocked: map<ItemId, int>, invoices: set<InvoiceId>)
    requires Valid(db) && n < |db.rows| && SweptSoFar(db, ids, n, marked, restocked, invoices)
    ensures var row := db.rows[n];
            && row.item in restocked
            && if n in ids
               then SweptSoFar(db, ids, n + 1, marked[n := row.(status := Released)],
                               restocked[row.item := restocked[row.item] + row.qty], invoices + {row.invoice})
               else SweptSoFar(db, ids, n + 1, marked, restocked, invoices)
  {
    RestockGrows(db, ids, n);
    NextInvoice(db.rows, ids, n);
  }

  lemma SweepBounds(db: Db, now: Time, marked: seq<Row>, restocked: map<ItemId, int>, invoices: set<InvoiceId>)
    ensures SweptSoFar(db, ExpiredIds(db.rows, now), 0, db.rows, db.stock, {})
    ensures SweptSoFar(db, ExpiredIds(db.rows, now), |db.rows|, marked, restocked, invoices) ==>
              && marked == Mark(db.rows, ExpiredIds(db.rows, now), Released)
              && restocked == Restock(db.stock, db.rows, ExpiredIds(db.rows, now))
              && invoices == set r | r in ExpiredIds(db.rows, now) :: db.rows[r].invoice
  {
    assert db.rows[..|db.rows|] == db.rows;
  }

  /** The sweep's loop: each expired row is released under a status guard and its stock put back. */
  method ReleaseExpired(rows: seq<Row>, stock: map<ItemId, int>, ghost active: set<ItemId>, now: Time)
    returns (marked: seq<Row>, restocked: map<ItemId, int>, invoices: set<InvoiceId>)
    requires Valid(Db(stock, active, rows))
    ensures marked == Mark(rows, ExpiredIds(rows, now), Released)
    ensures restocked == Restock(stock, rows, ExpiredIds(rows, now))
    ensures invoices == set r | r in ExpiredIds(rows, now) :: rows[r].invoice
  {
    marked, restocked, invoices := rows, stock, {};
    ghost var db, ids := Db(stock, active, rows), ExpiredIds(rows, now);
    SweepBounds(db, now, marked, restocked, invoices);
    for r := 0 to |rows|
      invariant SweptSoFar(db, ids, r, marked, restocked, invoices)
    {
      var row := rows[r];
      SweepNext(db, ids, r, marked, restocked, invoices);
      if row.status == Held && row.expiresAt <= now {
        marked := marked[r := row.(status := Released)];
        restocked := restocked[row.item := restocked[row.item] + row.qty];
        invoices := invoices + {row.invoice};
      }
    }
    SweepBounds(db, now, marked, restocked, invoices);
  }

  class ReservationService {
    var stock: map<ItemId, int>
    var active: set<ItemId>
    var rows: seq<Row>

    ghost function View(): Db
      reads this
    {
      Db(stock, active, rows)
    }

    method Reserve(invoice: InvoiceId, lines: seq<(ItemId, int)>, now: Time, ttlSeconds: int)
      returns (r: Result<ReserveReply, ReserveError>, ghost missing: set<nat>, ghost from: seq<nat>)
      requires Valid(View())
      modifies this
      ensures Valid(View()) && active == old(active)
      ensures r.Ok? <==> lines != [] && forall k :: 0 <= k < |lines| ==> lines[k].1 > 0
      ensures r.Err? ==> View() == old(View())
      ensures r.Ok? ==>
                && View() == Reserved(old(View()), invoice, AsLines(lines), now + ttlSeconds)
                && (r.value.Success? <==> Fits(old(View()), AsLines(lines)))
                && (r.value.Success? ==> r.value == Success(now, now + ttlSeconds))
                && MissingLines(old(View()), AsLines(lines), missing)
                && (r.value.Failure? ==>
                      Picks(from, missing) && Reports(old(View()), AsLines(lines), missing, from, r.value.unavailable))
    {
      missing, from := {}, [];
      for k := 0 to |lines|
        invariant forall j :: 0 <= j < k ==> lines[j].1 > 0
      {
        if lines[k].1 <= 0 {
          return Err(QuantityNotPositive), {}, [];
        }
      }
      if lines == [] {
        return Err(NoLines), {}, [];
      }
      var wanted := AsLines(lines);
      var left := stock;
      var unavailable: seq<Shortfall> := [];
      for k := 0 to |wanted|
        invariant (left, unavailable) == Serve(stock, active, wanted[..k])
      {
        assert wanted[..k + 1][..k] == wanted[..k];
        var line := wanted[k];
        if CanTake(left, active, line) {
          left := left[line.item := left[line.item] - line.qty];
        } else {
          unavailable := unavailable + [Shortfall(line.item, line.qty, Reported(left, active, line.item))];
        }
      }
      assert wanted[..|wanted|] == wanted;
      missing, from := ServeReports(View(), wanted);
      ServedExactlyWhenFits(View(), wanted);
      ReserveConserves(View(), invoice, wanted, now + ttlSeconds);
      if unavailable != [] {
        return Ok(Failure(unavailable)), missing, from;
      }
      stock := left;
      rows := rows + NewRows(invoice, wanted, now + ttlSeconds);
      return Ok(Success(now, now + ttlSeconds)), missing, from;
    }

    method RollbackExpiredHolds(now: Time) returns (invoices: set<InvoiceId>)
      requires Valid(View())
      modifies this
      ensures Valid(View()) && View() == Swept(old(View()), now)
      ensures |rows| == |old(rows)|
      ensures forall r :: 0 <= r < |rows| ==>
                rows[r] == if old(rows)[r].status == Held && old(rows)[r].expiresAt <= now
                           then old(rows)[r].(status := Released) else old(rows)[r]
      ensures invoices == set r | r in ExpiredIds(old(rows), now) :: old(rows)[r].invoice
    {
      SweepConserves(View(), now);
      rows, stock, invoices := ReleaseExpired(rows, stock, active, now);
    }

    method MarkReservedPaid(invoice: InvoiceId) returns (count: nat)
      modifies this
      ensures stock == old(stock) && active == old(active) && |rows| == |old(rows)|
      ensures forall r :: 0 <= r < |rows| && rows[r].invoice == invoice ==> rows[r].status != Held
      ensures forall r :: 0 <= r < |rows| ==>
                rows[r] == old(rows)[r]
                || (rows[r] == old(rows)[r].(status := Paid) && old(rows)[r].invoice == invoice && old(rows)[r].status == Held)
      ensures count == |set r | 0 <= r < |rows| && old(rows)[r].status == Held && rows[r].status == Paid|
      ensures View() == MarkedPaid(old(View()), invoice)
    {
      var ids := HeldIdsOf(rows, invoice);
      rows := Mark(rows, ids, Paid);
      assert (set r | 0 <= r < |rows| && old(rows)[r].status == Held && rows[r].status == Paid) == ids;
      return |ids|;
    }
  }

  function AsLines(lines: seq<(ItemId, int)>): (r: seq<Line>)
    requires forall k :: 0 <= k < |lines| ==> lines[k].1 > 0
    ensures |r| == |lines| && forall k :: 0 <= k < |lines| ==> r[k].item == lines[k].0 && r[k].qty == lines[k].1
  {
    seq(|lines|, k requires 0 <= k < |lines| => Line(lines[k].0, lines[k].1))
  }

  lemma RestockGrows(db: Db, ids: set<nat>, r: nat)
    requires Valid(db) && r < |db.rows|
    ensures var row := db.rows[r];
            var before := Restock(db.stock, db.rows[..r], ids);
            && row.item in before
            && Restock(db.stock, db.rows[..r + 1], ids)
               == if r in ids then before[row.item := before[row.item] + row.qty] else before
  {
    assert db.rows[..r + 1][..r] == db.rows[..r];
  }
}
