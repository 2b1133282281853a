/**
 The reservation worker's service object: its operations as they run when nobody interferes,
 each proved to be a run of the statement-level protocol.
 */
module WorkerService {
  import opened Sums
  import opened Holds
  import opened Outcomes
  import opened WorkerProtocol

  /** One entry of `line_items` as the caller sends it; a field may be missing. */
  datatype RawLine = RawLine(item: Option<ItemId>, qty: Option<int>)

  datatype Error =
    | MissingField
    | QuantityNotPositive
    | NoLines
    | ItemNotFound(item: ItemId)
    | InsufficientStock(item: ItemId, requested: int, available: int)

  predicate WellFormed(raw: RawLine)
  {
    raw.item.Some? && raw.qty.Some? && raw.qty.value > 0
  }

  function Complaint(raw: RawLine): Error
    requires !WellFormed(raw)
  {
    if raw.item.None? || raw.qty.None? then MissingField else QuantityNotPositive
  }

  predicate AllWellFormed(raw: seq<RawLine>)
  {
    raw != [] && forall k :: 0 <= k < |raw| ==> WellFormed(raw[k])
  }

  function Lines(raw: seq<RawLine>): (lines: seq<Line>)
    requires AllWellFormed(raw)
    ensures Normalized(lines) && |lines| == |raw|
  {
    seq(|raw|, k requires 0 <= k < |raw| => Line(raw[k].item.value, raw[k].qty.value))
  }

  predicate FirstBad(raw: seq<RawLine>, k: nat)
  {
    k < |raw| && !WellFormed(raw[k]) && forall j :: 0 <= j < k ==> WellFormed(raw[j])
  }

  method NormalizeLineItems(raw: seq<RawLine>) returns (r: Result<seq<Line>, Error>)
    ensures r.Ok? <==> AllWellFormed(raw)
    ensures r.Ok? ==> r.value == Lines(raw)
    ensures r.Err? && raw == [] ==> r.error == NoLines
    ensures r.Err? && raw != [] ==> exists k: nat :: FirstBad(raw, k) && r.error == Complaint(raw[k])
  {
    var normalized: seq<Line> := [];
    for k := 0 to |raw|
      invariant |normalized| == k
      invariant forall j :: 0 <= j < k ==> WellFormed(raw[j])
      invariant forall j :: 0 <= j < k ==> normalized[j].item == raw[j].item.value && normalized[j].qty == raw[j].qty.value
    {
      assert !WellFormed(raw[k]) ==> FirstBad(raw, k);
      if raw[k].item.None? || raw[k].qty.None? {
        return Err(MissingField);
      }
      if raw[k].qty.value <= 0 {
        return Err(QuantityNotPositive);
      }
      normalized := normalized + [Line(raw[k].item.value, raw[k].qty.value)];
    }
    if normalized == [] {
      return Err(NoLines);
    }
    return Ok(normalized);
  }

  /** Ids of the rows a settling operation selects. */
  function SelectIds(rows: seq<Row>, selector: Selector): set<nat>
  {
    set r | 0 <= r < |rows| && Selected(selector, rows[r])
  }

  function RowsOfInvoice(rows: seq<Row>, ids: set<nat>, invoice: InvoiceId): set<nat>
  {
    set r | r in ids && r < |rows| && rows[r].invoice == invoice
  }

  function Invoices(rows: seq<Row>, ids: set<nat>): set<InvoiceId>
  {
    set r | r in ids && r < |rows| :: rows[r].invoice
  }

  /** For every invoice in the selection, how many of its rows are selected. */
  predicate Tallies(perInvoice: map<InvoiceId, nat>, rows: seq<Row>, ids: set<nat>)
  {
    perInvoice.Keys == Invoices(rows, ids) && forall i :: i in perInvoice ==> perInvoice[i] == |RowsOfInvoice(rows, ids, i)|
  }

  /** The counter after each entry of `owed` has been taken off it, deleting what is used up. */
  function PayAll(counter: map<ItemId, int>, owed: map<ItemId, int>): map<ItemId, int>
  {
    map i | i in counter && (i in owed ==> counter[i] - owed[i] > 0) :: counter[i] - Get(owed, i)
  }

  /** `item_qty_map` for a selection: the total of every item that occurs in it. */
  ghost function Totals(rows: seq<Row>, ids: set<nat>): map<ItemId, int>
  {
    map i | i in RowItems(rows, ids) :: ChosenTotal(rows, ids, i)
  }

  /** Stock suffices for the selected rows. */
  ghost predicate Chargeable(stock: map<ItemId, int>, rows: seq<Row>, ids: set<nat>)
  {
    forall i :: i in RowItems(rows, ids) ==> i in stock && ChosenTotal(rows, ids, i) <= stock[i]
  }

  predicate LineFits(stock: map<ItemId, int>, counter: map<ItemId, int>, line: Line)
  {
    line.item in stock && stock[line.item] - Get(counter, line.item) >= line.qty
  }

  predicate FirstRefused(stock: map<ItemId, int>, counter: map<ItemId, int>, lines: seq<Line>, k: nat)
  {
    k < |lines| && !LineFits(stock, counter, lines[k]) && forall j :: 0 <= j < k ==> LineFits(stock, counter, lines[j])
  }

  function Refusal(stock: map<ItemId, int>, counter: map<ItemId, int>, line: Line): Error
  {
    if line.item !in stock then ItemNotFound(line.item)
    else InsufficientStock(line.item, line.qty, stock[line.item] - Get(counter, line.item))
  }

  /** The check loop of `reserve`: all lines against the same counters. */
  method CheckLines(stock: map<ItemId, int>, counter: map<ItemId, int>, lines: seq<Line>) returns (r: Option<Error>)
    ensures r.None? <==> Accepts(stock, counter, lines)
    ensures r.Some? ==> exists k: nat :: FirstRefused(stock, counter, lines, k) && r.value == Refusal(stock, counter, lines[k])
  {
    for k := 0 to |lines|
      invariant forall j :: 0 <= j < k ==> LineFits(stock, counter, lines[j])
    {
      assert !LineFits(stock, counter, lines[k]) ==> FirstRefused(stock, counter, lines, k);
      if lines[k].item !in stock {
        return Some(ItemNotFound(lines[k].item));
      }
      var available := stock[lines[k].item] - Get(counter, lines[k].item);
      if available < lines[k].qty {
        return Some(InsufficientStock(lines[k].item, lines[k].qty, available));
      }
    }
    return None;
  }

  /** The loop over the selected rows: new status on each, quantities summed per item. */
  method CollectRows(rows: seq<Row>, selector: Selector, to: Status)
    returns (marked: seq<Row>, itemQty: map<ItemId, int>, perInvoice: map<InvoiceId, nat>)
    ensures marked == Mark(rows, SelectIds(rows, selector), to)
    ensures itemQty == Totals(rows, SelectIds(rows, selector))
    ensures Tallies(perInvoice, rows, SelectIds(rows, selector))
  {
    marked, itemQty, perInvoice := rows, map[], map[];
    for r := 0 to |rows|
      invariant |marked| == |rows|
      invariant forall k :: 0 <= k < |rows| ==>
                  marked[k] == if k < r && Selected(selector, rows[k]) then rows[k].(status := to) else rows[k]
      invariant itemQty == QtyPerItem(rows, selector, r)
      invariant perInvoice == RowsPerInvoice(rows, selector, r)
    {
      var row := rows[r];
      if Selected(selector, row) {
        itemQty := itemQty[row.item := Get(itemQty, row.item) + row.qty];
        marked := marked[r := row.(status := to)];
        perInvoice := perInvoice[row.invoice := Count(perInvoice, row.invoice) + 1];
      }
    }
    QtyPerItemIsTotals(rows, selector, |rows|);
    assert rows[..|rows|] == rows;
    RowsPerInvoiceKeys(rows, selector, |rows|);
    forall i: InvoiceId ensures Count(perInvoice, i) == |RowsOfInvoice(rows, SelectIds(rows, selector), i)| {
      RowsPerInvoiceCounts(rows, selector, |rows|, i);
    }
  }

  class ReservationService {
    var stock: map<ItemId, int>
    var rows: seq<Row>
    var counter: map<ItemId, int>

    /** This object as the protocol's state with a single idle process. */
    ghost function View(): State
      reads this
    {
      State(stock, rows, counter, [Idle], map[])
    }

    method TrueAvailable(item: ItemId) returns (r: Result<int, Error>)
      ensures r.Ok? <==> item in stock
      ensures r.Ok? ==> r.value == Get(stock, item) - Get(counter, item)
      ensures r.Ok? && Settled(View()) ==> r.value == stock[item] - InStatus(rows, item, Held) >= 0
    {
      if item !in stock {
        return Err(ItemNotFound(item));
      }
      assert Settled(View()) ==> Get(View().counter, item) == InStatus(rows, item, Held) <= Get(View().stock, item);
      return Ok(stock[item] - Get(counter, item));
    }

    method Reserve(invoice: InvoiceId, lineItems: seq<RawLine>, now: Time, ttlSeconds: int)
      returns (r: Result<seq<Row>, Error>)
      modifies this
      ensures stock == old(stock)
      ensures r.Ok? <==> AllWellFormed(lineItems) && Accepts(stock, old(counter), Lines(lineItems))
      ensures r.Ok? ==>
                && r.value == NewRows(invoice, Lines(lineItems), now + ttlSeconds)
                && rows == old(rows) + r.value
                && counter == IncrAll(old(counter), Lines(lineItems))
      ensures r.Err? ==> rows == old(rows) && counter == old(counter)
      ensures r.Err? && AllWellFormed(lineItems) ==>
                exists k: nat :: FirstRefused(stock, counter, Lines(lineItems), k)
                            && r.error == Refusal(stock, counter, Lines(lineItems)[k])
      ensures r.Ok? && DistinctItems(Lines(lineItems)) ==> SoloRun(old(View()), View())
    {
      var normalized := NormalizeLineItems(lineItems);
      if normalized.Err? {
        return Err(normalized.error);
      }
      var lines := normalized.value;
      var refusal := CheckLines(stock, counter, lines);
      if refusal.Some? {
        return Err(refusal.value);
      }
      assert lines[..|lines|] == lines;
      var held := NewRows(invoice, lines, now + ttlSeconds);
      for k := 0 to |lines|
        invariant stock == old(stock) && rows == old(rows) && counter == IncrAll(old(counter), lines[..k])
      {
        assert lines[..k + 1][..k] == lines[..k];
        counter := IncrBy(counter, lines[k].item, lines[k].qty);
      }
      rows := rows + held;
      if DistinctItems(lines) {
        ReserveIsSolo(old(View()), invoice, lines, now + ttlSeconds, View());
      }
      return Ok(held);
    }

    /** The decrement loop that follows the database commit. */
    method PayOff(itemQty: map<ItemId, int>)
      requires forall i :: i in itemQty ==> itemQty[i] >= 0
      modifies this`counter
      ensures counter == PayAll(old(counter), itemQty)
    {
      var todo := itemQty.Keys;
      while todo != {}
        invariant todo <= itemQty.Keys
        invariant counter == PayAll(old(counter), itemQty - todo)
      {
        var i :| i in todo;
        PayOneMore(old(counter), itemQty, todo, i);
        counter := DecrOrDelete(counter, i, itemQty[i]);
        todo := todo - {i};
      }
      assert itemQty - {} == itemQty;
    }

    /** The loop of `commit` over its items: each row locked, checked and lowered. */
    method ChargeStock(itemQty: map<ItemId, int>) returns (r: Result<map<ItemId, int>, Error>)
      ensures r.Ok? <==> forall i :: i in itemQty ==> i in stock && itemQty[i] <= stock[i]
      ensures r.Ok? ==> r.value == map i | i in stock :: stock[i] - Get(itemQty, i)
      ensures r.Err? && r.error.InsufficientStock? ==> exists i :: i in itemQty && Get(stock, i) < itemQty[i]
    {
      var charged := stock;
      var todo := itemQty.Keys;
      while todo != {}
        invariant todo <= itemQty.Keys
        invariant forall i :: i in itemQty.Keys - todo ==> i in stock && itemQty[i] <= stock[i]
        invariant charged == map i | i in stock :: stock[i] - Get(itemQty - todo, i)
      {
        var i :| i in todo;
        if i !in stock {
          return Err(ItemNotFound(i));
        }
        if charged[i] < itemQty[i] {
          return Err(InsufficientStock(i, itemQty[i], charged[i]));
        }
        charged := charged[i := charged[i] - itemQty[i]];
        todo := todo - {i};
      }
      assert itemQty - todo == itemQty;
      return Ok(charged);
    }

    method Commit(invoice: InvoiceId) returns (r: Result<nat, Error>)
      modifies this
      ensures r.Ok? <==> Chargeable(old(stock), old(rows), SelectIds(old(rows), ByInvoice(invoice)))
      ensures r.Err? ==> stock == old(stock) && rows == old(rows) && counter == old(counter)
      ensures r.Ok? ==>
                var ids := SelectIds(old(rows), ByInvoice(invoice));
                && r.value == |ids|
                && rows == Mark(old(rows), ids, Committed)
                && stock == Charged(old(View()), ids)
                && counter == PayAll(old(counter), Totals(old(rows), ids))
      ensures r.Ok? ==>
                && |rows| == |old(rows)|
                && forall r :: 0 <= r < |rows| ==>
                     rows[r] == if old(rows)[r].status == Held && old(rows)[r].invoice == invoice
                                then old(rows)[r].(status := Committed) else old(rows)[r]
      ensures r.Ok? ==> SoloRun(old(View()), View())
      ensures r.Err? && r.error.InsufficientStock? ==> !old(Settled(View()))
    {
      ghost var ids, before := SelectIds(rows, ByInvoice(invoice)), View();
      ChargeableMeans(stock, rows, ids);
      var marked, itemQty, perInvoice := CollectRows(rows, ByInvoice(invoice), Committed);
      TallyOfOne(rows, invoice, perInvoice);
      var count := Count(perInvoice, invoice);
      TotalsNonNegative(before.rows, ids);
      var charged := ChargeStock(itemQty);
      if charged.Err? {
        if Settled(before) {
          SettledIsCovered(before, ids);
        }
        return Err(charged.error);
      }
      ChargedIsCharged(before, ids, charged.value);
      rows, stock := marked, charged.value;
      PayOff(itemQty);
      assert View() == AfterCommit(before, ids);
      CommitIsSolo(before, invoice, View());
      return Ok(count);
    }

    method ReleaseHolds(invoice: InvoiceId) returns (released: nat)
      modifies this
      ensures stock == old(stock)
      ensures |rows| == |old(rows)|
      ensures forall r :: 0 <= r < |rows| ==>
                rows[r] == if old(rows)[r].status == Held && old(rows)[r].invoice == invoice
                           then old(rows)[r].(status := Released) else old(rows)[r]
      ensures rows == Mark(old(rows), SelectIds(old(rows), ByInvoice(invoice)), Released)
      ensures counter == PayAll(old(counter), Totals(old(rows), SelectIds(old(rows), ByInvoice(invoice))))
      ensures released == |SelectIds(old(rows), ByInvoice(invoice))|
      ensures SoloRun(old(View()), View())
    {
      TotalsNonNegative(rows, SelectIds(rows, ByInvoice(invoice)));
      var marked, itemQty, perInvoice := CollectRows(rows, ByInvoice(invoice), Released);
      rows := marked;
      PayOff(itemQty);
      ReleaseIsSolo(old(View()), ByInvoice(invoice), View());
      TallyOfOne(old(rows), invoice, perInvoice);
      return Count(perInvoice, invoice);
    }

    method ReleaseExpiredHolds(now: Time) returns (perInvoice: map<InvoiceId, nat>)
      modifies this
      ensures stock == old(stock)
      ensures |rows| == |old(rows)|
      ensures forall r :: 0 <= r < |rows| ==>
                rows[r] == if old(rows)[r].status == Held && old(rows)[r].expiresAt <= now
                           then old(rows)[r].(status := Released) else old(rows)[r]
      ensures rows == Mark(old(rows), SelectIds(old(rows), ExpiredBy(now)), Released)
      ensures counter == PayAll(old(counter), Totals(old(rows), SelectIds(old(rows), ExpiredBy(now))))
      ensures Tallies(perInvoice, old(rows), SelectIds(old(rows), ExpiredBy(now)))
      ensures SoloRun(old(View()), View())
    {
      TotalsNonNegative(rows, SelectIds(rows, ExpiredBy(now)));
      var marked, itemQty;
      marked, itemQty, perInvoice := CollectRows(rows, ExpiredBy(now), Released);
      rows := marked;
      PayOff(itemQty);
      ReleaseIsSolo(old(View()), ExpiredBy(now), View());
    }
  }

  function Count(m: map<InvoiceId, nat>, invoice: InvoiceId): nat
  {
    if invoice in m then m[invoice] else 0
  }

  /** `released_per_invoice` as the loop builds it from the first `n` rows. */
  function RowsPerInvoice(rows: seq<Row>, selector: Selector, n: nat): map<InvoiceId, nat>
    requires n <= |rows|
  {
    if n == 0 then map[]
    else
      var before := RowsPerInvoice(rows, selector, n - 1);
      var row := rows[n - 1];
      if Selected(selector, row) then before[row.invoice := Count(before, row.invoice) + 1] else before
  }

  lemma {:induction false} RowsPerInvoiceKeys(rows: seq<Row>, selector: Selector, n: nat)
    requires n <= |rows|
    ensures RowsPerInvoice(rows, selector, n).Keys == Invoices(rows[..n], SelectIds(rows, selector))
  {
    if n > 0 {
      RowsPerInvoiceKeys(rows, selector, n - 1);
      InvoicesGrow(rows, SelectIds(rows, selector), n - 1);
    }
  }

  lemma {:induction false} RowsPerInvoiceCounts(rows: seq<Row>, selector: Selector, n: nat, i: InvoiceId)
    requires n <= |rows|
    ensures Count(RowsPerInvoice(rows, selector, n), i) == |RowsOfInvoice(rows[..n], SelectIds(rows, selector), i)|
  {
    if n == 0 {
      assert RowsOfInvoice(rows[..0], SelectIds(rows, selector), i) == {};
    } else {
      RowsPerInvoiceCounts(rows, selector, n - 1, i);
      RowsOfInvoiceGrow(rows, SelectIds(rows, selector), n - 1, i);
    }
  }

  lemma RowsOfInvoiceGrow(rows: seq<Row>, ids: set<nat>, r: nat, i: InvoiceId)
    requires r < |rows|
    ensures RowsOfInvoice(rows[..r + 1], ids, i)
         == RowsOfInvoice(rows[..r], ids, i) + if r in ids && rows[r].invoice == i then {r} else {}
  {
    forall k | 0 <= k <= r ensures k < r ==> rows[..r + 1][k] == rows[..r][k] {}
  }

  lemma InvoicesGrow(rows: seq<Row>, ids: set<nat>, r: nat)
    requires r < |rows|
    ensures Invoices(rows[..r + 1], ids) == Invoices(rows[..r], ids) + if r in ids then {rows[r].invoice} else {}
  {
    forall k | 0 <= k <= r ensures k < r ==> rows[..r + 1][k] == rows[..r][k] {}
  }

  /** Among the rows selected for one invoice, all are that invoice's. */
  lemma TallyOfOne(rows: seq<Row>, invoice: InvoiceId, perInvoice: map<InvoiceId, nat>)
    requires Tallies(perInvoice, rows, SelectIds(rows, ByInvoice(invoice)))
    ensures Count(perInvoice, invoice) == |SelectIds(rows, ByInvoice(invoice))|
  {
    var ids := SelectIds(rows, ByInvoice(invoice));
    assert RowsOfInvoice(rows, ids, invoice) == ids;
    if r :| r in ids {
      assert invoice in Invoices(rows, ids);
    }
  }

  /** `item_qty_map` as the loop builds it from the first `n` rows. */
  function QtyPerItem(rows: seq<Row>, selector: Selector, n: nat): map<ItemId, int>
    requires n <= |rows|
  {
    if n == 0 then map[]
    else
      var before := QtyPerItem(rows, selector, n - 1);
      var row := rows[n - 1];
      if Selected(selector, row) then before[row.item := Get(before, row.item) + row.qty] else before
  }

  lemma {:induction false} QtyPerItemIsTotals(rows: seq<Row>, selector: Selector, n: nat)
    requires n <= |rows|
    ensures QtyPerItem(rows, selector, n) == Totals(rows[..n], SelectIds(rows, selector))
  {
    if n > 0 {
      QtyPerItemIsTotals(rows, selector, n - 1);
      TotalsGrow(rows, SelectIds(rows, selector), n - 1);
    }
  }

  lemma TotalsGrow(rows: seq<Row>, ids: set<nat>, r: nat)
    requires r < |rows|
    ensures Totals(rows[..r + 1], ids)
         == if r in ids
            then Totals(rows[..r], ids)[rows[r].item := Get(Totals(rows[..r], ids), rows[r].item) + rows[r].qty]
            else Totals(rows[..r], ids)
  {
    var before, after := rows[..r], rows[..r + 1];
    assert after[..r] == before;
    assert RowItems(after, ids) == RowItems(before, ids) + if r in ids then {rows[r].item} else {} by {
      forall k | 0 <= k < |after| ensures k < r ==> after[k] == before[k] {}
    }
    if r in ids && rows[r].item !in RowItems(before, ids) {
      ChosenElsewhere(before, ids, rows[r].item);
    }
  }

  lemma PayOneMore(counter: map<ItemId, int>, owed: map<ItemId, int>, todo: set<ItemId>, i: ItemId)
    requires i in todo && todo <= owed.Keys && forall j :: j in owed ==> owed[j] >= 0
    ensures DecrOrDelete(PayAll(counter, owed - todo), i, owed[i]) == PayAll(counter, owed - (todo - {i}))
  {
  }

  lemma TotalsNonNegative(rows: seq<Row>, ids: set<nat>)
    ensures forall i :: i in Totals(rows, ids) ==> Totals(rows, ids)[i] >= 0
  {
    forall i: ItemId ensures 0 <= ChosenTotal(rows, ids, i) {
      ChosenNonNegative(rows, ids, i);
    }
  }

  lemma SettledIsCovered(s: State, ids: set<nat>)
    requires HeldRows(s, ids) && Settled(s)
    ensures forall i :: i in Totals(s.rows, ids) ==> Totals(s.rows, ids)[i] <= Get(s.stock, i)
  {
    forall i: ItemId | i in Totals(s.rows, ids) ensures ChosenTotal(s.rows, ids, i) <= Get(s.stock, i) {
      ChosenWithinHeld(s.rows, ids, i);
      assert Get(s.counter, i) == InStatus(s.rows, i, Held) <= Get(s.stock, i);
    }
  }

  lemma ChargeableMeans(stock: map<ItemId, int>, rows: seq<Row>, ids: set<nat>)
    ensures Chargeable(stock, rows, ids)
       <==> forall i :: i in Totals(rows, ids) ==> i in stock && Totals(rows, ids)[i] <= stock[i]
  {
  }

  /** The selected rows committed: stock charged, counters paid off. */
  ghost function AfterCommit(s: State, ids: set<nat>): State
  {
    s.(rows := Mark(s.rows, ids, Committed), stock := Charged(s, ids),
       counter := PayAll(s.counter, Totals(s.rows, ids)))
  }

  lemma ChargedIsCharged(s: State, ids: set<nat>, charged: map<ItemId, int>)
    requires charged == map i | i in s.stock :: s.stock[i] - Get(Totals(s.rows, ids), i)
    ensures charged == Charged(s, ids)
  {
    forall i | i in s.stock ensures charged[i] == Charged(s, ids)[i] {
      if i !in RowItems(s.rows, ids) {
        ChosenElsewhere(s.rows, ids, i);
      }
    }
  }

  /** `t` is reached from `s` by one process working alone, which keeps settled state settled. */
  ghost predicate SoloRun(s: State, t: State)
  {
    Reaches(s, t) && (Settled(s) ==> Settled(t))
  }

  lemma SoloSettled(s: State, t: State)
    requires Reaches(s, t) && t.procs == [Idle]
    ensures SoloRun(s, t)
  {
    if Settled(s) {
      var run :| Executes(s, run, t) && Sound(run) && FaultFree(run);
      ExactWithoutFaults(s, run, t);
    }
  }

  lemma ReserveIsSolo(s: State, invoice: InvoiceId, lines: seq<Line>, expiresAt: Time, t: State)
    requires s.procs == [Idle] && Normalized(lines) && DistinctItems(lines) && Accepts(s.stock, s.counter, lines)
    requires t == s.(counter := IncrAll(s.counter, lines), rows := s.rows + NewRows(invoice, lines, expiresAt))
    ensures SoloRun(s, t)
  {
    SoloReserve(s, invoice, lines, expiresAt);
    SoloSettled(s, t);
  }

  lemma {:induction false} SoloLocks(s: State, mode: Mode, selector: Selector, ids: set<nat>)
    requires s.procs == [Idle] && (mode.Commit? ==> selector.ByInvoice?)
    requires forall r :: r in ids ==> r < |s.rows| && Selected(selector, s.rows[r])
    ensures Reaches(s, s.(procs := [Selecting(mode, selector, ids)]))
    decreases ids
  {
    var u := s.(procs := [Selecting(mode, selector, ids)]);
    if ids == {} {
      ReachesItself(s);
      SoloStep(s, s, BeginSettle(0, mode, selector), u);
    } else {
      var r :| r in ids;
      SoloLocks(s, mode, selector, ids - {r});
      assert ids - {r} + {r} == ids;
      SoloStep(s, s.(procs := [Selecting(mode, selector, ids - {r})]), LockRow(0, r), u);
    }
  }

  lemma {:induction false} SoloCharges(s: State, invoice: InvoiceId, ids: set<nat>, taken: set<ItemId>)
    requires s.procs == [Idle] && taken <= RowItems(s.rows, ids) && Chargeable(s.stock, s.rows, ids)
    requires forall r :: r in ids ==> r < |s.rows| && Selected(ByInvoice(invoice), s.rows[r])
    ensures Reaches(s, s.(procs := [Charging(invoice, ids, taken)]))
    decreases taken
  {
    var u := s.(procs := [Charging(invoice, ids, taken)]);
    if taken == {} {
      SoloLocks(s, Mode.Commit, ByInvoice(invoice), ids);
      SoloStep(s, s.(procs := [Selecting(Mode.Commit, ByInvoice(invoice), ids)]), StartCharging(0), u);
    } else {
      var i :| i in taken;
      SoloCharges(s, invoice, ids, taken - {i});
      assert taken - {i} + {i} == taken;
      SoloStep(s, s.(procs := [Charging(invoice, ids, taken - {i})]), ChargeItem(0, i), u);
    }
  }

  /** The totals of a selection listed as one entry per item, whatever the order. */
  lemma {:induction false} ListDebts(rows: seq<Row>, ids: set<nat>, items: set<ItemId>) returns (debts: seq<Line>)
    ensures DistinctItems(debts) && ItemsOf(debts) == items
    ensures forall i: ItemId :: LineTotal(debts, i) == if i in items then ChosenTotal(rows, ids, i) else 0
    decreases items
  {
    if items == {} {
      debts := [];
    } else {
      var i :| i in items;
      var rest := ListDebts(rows, ids, items - {i});
      ChosenNonNegative(rows, ids, i);
      debts := rest + [Line(i, ChosenTotal(rows, ids, i))];
      forall k | 0 <= k < |rest| ensures rest[k].item != i { assert rest[k].item in ItemsOf(rest); }
      assert ItemsOf(debts) == ItemsOf(rest) + {i} by {
        assert debts[|rest|].item == i;
        forall k | 0 <= k < |rest| ensures debts[k] == rest[k] {}
      }
      forall j: ItemId ensures LineTotal(debts, j) == if j in items then ChosenTotal(rows, ids, j) else 0 {
        SumSnoc(rest, Line(i, ChosenTotal(rows, ids, i)), QtyOf(j));
      }
    }
  }

  lemma CoveringDebts(rows: seq<Row>, ids: set<nat>) returns (debts: seq<Line>)
    ensures Covers(debts, rows, ids)
  {
    debts := ListDebts(rows, ids, RowItems(rows, ids));
    forall i: ItemId ensures LineTotal(debts, i) == ChosenTotal(rows, ids, i) {
      if i !in RowItems(rows, ids) {
        ChosenElsewhere(rows, ids, i);
      }
    }
  }

  ghost function DebtMap(debts: seq<Line>): map<ItemId, int>
  {
    map i | i in ItemsOf(debts) :: LineTotal(debts, i)
  }

  lemma DebtMapHead(debts: seq<Line>)
    requires debts != [] && DistinctItems(debts)
    ensures debts[0].item !in DebtMap(debts[1..])
    ensures DebtMap(debts) == DebtMap(debts[1..])[debts[0].item := debts[0].qty]
  {
    DebtKeysHead(debts);
    forall i: ItemId
      ensures LineTotal(debts, i) == if i == debts[0].item then debts[0].qty else LineTotal(debts[1..], i)
    {
      DebtValueHead(debts, i);
    }
  }

  lemma DebtKeysHead(debts: seq<Line>)
    requires debts != [] && DistinctItems(debts)
    ensures debts[0].item !in ItemsOf(debts[1..])
    ensures ItemsOf(debts) == {debts[0].item} + ItemsOf(debts[1..])
  {
    forall k | 0 < k < |debts| ensures debts[k] == debts[1..][k - 1] {}
    forall k | 0 <= k < |debts| - 1 ensures debts[1..][k].item != debts[0].item { assert debts[1..][k] == debts[k + 1]; }
  }

  lemma DebtValueHead(debts: seq<Line>, i: ItemId)
    requires debts != [] && DistinctItems(debts)
    ensures LineTotal(debts, i) == if i == debts[0].item then debts[0].qty else LineTotal(debts[1..], i)
  {
    LineTotalHead(debts, i);
    if i == debts[0].item {
      forall k | 0 <= k < |debts| - 1 ensures debts[1..][k].item != i { assert debts[1..][k] == debts[k + 1]; }
      LineTotalAbsent(debts[1..], i);
    }
  }

  lemma PayFirst(counter: map<ItemId, int>, i: ItemId, q: nat, owed: map<ItemId, int>)
    requires i !in owed
    ensures PayAll(DecrOrDelete(counter, i, q), owed) == PayAll(counter, owed[i := q])
  {
  }

  lemma {:induction false} SoloPays(s: State, t: State, debts: seq<Line>)
    requires Reaches(s, t) && t.procs == [Owing(debts)] && DistinctItems(debts)
    ensures Reaches(s, t.(procs := [Idle], counter := PayAll(t.counter, DebtMap(debts))))
    decreases |debts|
  {
    if debts == [] {
      assert PayAll(t.counter, DebtMap(debts)) == t.counter;
      SoloStep(s, t, Finish(0), t.(procs := [Idle]));
    } else {
      var u := t.(procs := [Owing(debts[1..])], counter := DecrOrDelete(t.counter, debts[0].item, debts[0].qty));
      SoloStep(s, t, PayDebt(0), u);
      SoloPays(s, u, debts[1..]);
      DebtMapHead(debts);
      PayFirst(t.counter, debts[0].item, debts[0].qty, DebtMap(debts[1..]));
    }
  }

  lemma DebtMapIsTotals(debts: seq<Line>, rows: seq<Row>, ids: set<nat>)
    requires Covers(debts, rows, ids)
    ensures DebtMap(debts) == Totals(rows, ids)
  {
  }

  lemma ReleaseIsSolo(s: State, selector: Selector, t: State)
    requires s.procs == [Idle]
    requires var ids := SelectIds(s.rows, selector);
             t == s.(rows := Mark(s.rows, ids, Released), counter := PayAll(s.counter, Totals(s.rows, ids)))
    ensures SoloRun(s, t)
  {
    var ids := SelectIds(s.rows, selector);
    SoloLocks(s, Release, selector, ids);
    var debts := CoveringDebts(s.rows, ids);
    var u := s.(rows := Mark(s.rows, ids, Released), procs := [Owing(debts)]);
    SoloStep(s, s.(procs := [Selecting(Release, selector, ids)]), CommitRelease(0, debts), u);
    SoloPays(s, u, debts);
    DebtMapIsTotals(debts, s.rows, ids);
    SoloSettled(s, t);
  }

  lemma CommitIsSolo(s: State, invoice: InvoiceId, t: State)
    requires s.procs == [Idle]
    requires var ids := SelectIds(s.rows, ByInvoice(invoice));
             Chargeable(s.stock, s.rows, ids) && t == AfterCommit(s, ids)
    ensures SoloRun(s, t)
  {
    var ids := SelectIds(s.rows, ByInvoice(invoice));
    SoloCharges(s, invoice, ids, RowItems(s.rows, ids));
    var debts := CoveringDebts(s.rows, ids);
    var u := s.(rows := Mark(s.rows, ids, Committed), stock := Charged(s, ids), procs := [Owing(debts)]);
    SoloStep(s, s.(procs := [Charging(invoice, ids, RowItems(s.rows, ids))]), CommitCharge(0, debts), u);
    SoloPays(s, u, debts);
    DebtMapIsTotals(debts, s.rows, ids);
    SoloSettled(s, t);
  }

  // ---------- a commit nobody saw ----------

  lemma {:induction false} CounterAfter(counter: map<ItemId, int>, lines: seq<Line>, i: ItemId)
    ensures Get(IncrAll(counter, lines), i) == Get(counter, i) + LineTotal(lines, i)
  {
    if lines == [] {
    } else {
      CounterAfter(counter, lines[..|lines| - 1], i);
      assert lines[..|lines| - 1] + [lines[|lines| - 1]] == lines;
      SumSnoc(lines[..|lines| - 1], lines[|lines| - 1], QtyOf(i));
    }
  }

  /** Undoing increments that are in the counter brings it back to what it was. */
  lemma UndoneCounter(counter: map<ItemId, int>, lines: seq<Line>, i: ItemId)
    requires Get(counter, i) >= 0
    ensures Get(PayAll(IncrAll(counter, lines), DebtMap(lines)), i) == Get(counter, i)
  {
    CounterAfter(counter, lines, i);
    if i !in ItemsOf(lines) {
      forall k | 0 <= k < |lines| ensures lines[k].item != i { assert lines[k].item in ItemsOf(lines); }
      LineTotalAbsent(lines, i);
    }
    LineTotalNonNegative(lines, i);
  }

  /** The request commits, its caller sees an error and undoes the increments: rows without counters. */
  lemma UnseenCommitRuns(s: State, invoice: InvoiceId, lines: seq<Line>, expiresAt: Time)
    returns (before: State, after: State, u: State)
    requires Settled(s) && s.procs == [Idle]
    requires Normalized(lines) && DistinctItems(lines) && Accepts(s.stock, s.counter, lines)
    ensures Reaches(s, before) && Enabled(before, CommitUnseen(0)) && after == Apply(before, CommitUnseen(0))
    ensures Reaches(after, u) && u.procs == [Idle] && u.stock == s.stock
    ensures u.rows == s.rows + NewRows(invoice, lines, expiresAt)
    ensures forall i: ItemId :: Get(u.counter, i) == Get(s.counter, i)
  {
    SoloIncrements(s, invoice, lines, expiresAt, |lines|);
    assert lines[..|lines|] == lines;
    before := s.(procs := [Holding(invoice, lines, expiresAt, |lines|)], counter := IncrAll(s.counter, lines));
    after := Apply(before, CommitUnseen(0));
    assert after.procs == [Owing(lines)];
    ReachesItself(after);
    SoloPays(after, after, lines);
    u := after.(procs := [Idle], counter := PayAll(after.counter, DebtMap(lines)));
    forall i: ItemId ensures Get(u.counter, i) == Get(s.counter, i) {
      InStatusNonNegative(s.rows, i, Held);
      UndoneCounter(s.counter, lines, i);
    }
  }

  /**
   Any request a settled service accepts can be oversold in this way: the next customer, asking for
   all that is reported available of its first item, is served from the same stock.
   */
  lemma UnseenCommitOversells(s: State, invoice: InvoiceId, lines: seq<Line>, expiresAt: Time)
    returns (before: State, after: State, t: State)
    requires Settled(s) && s.procs == [Idle]
    requires Normalized(lines) && DistinctItems(lines) && Accepts(s.stock, s.counter, lines)
    ensures Reaches(s, before) && Enabled(before, CommitUnseen(0)) && after == Apply(before, CommitUnseen(0))
    ensures Reaches(after, t) && InStatus(t.rows, lines[0].item, Held) > Get(t.stock, lines[0].item)
  {
    var u;
    before, after, u := UnseenCommitRuns(s, invoice, lines, expiresAt);
    var x := lines[0].item;
    var next := [Line(x, Get(u.stock, x) - Get(u.counter, x))];
    SoloReserve(u, invoice, next, expiresAt);
    t := u.(counter := IncrAll(u.counter, next), rows := u.rows + NewRows(invoice, next, expiresAt));
    ReachesTransitive(after, u, t);
    NewRowsTotals(s.rows, invoice, lines, expiresAt, x, Held);
    NewRowsTotals(u.rows, invoice, next, expiresAt, x, Held);
    LineTotalAtLeast(lines, 0);
    LineTotalOne(next[0], x);
  }

  // ---------- which requests `reserve` can be trusted with ----------

  ghost function AfterReserve(s: State, invoice: InvoiceId, lines: seq<Line>, expiresAt: Time): State
  {
    s.(counter := IncrAll(s.counter, lines), rows := s.rows + NewRows(invoice, lines, expiresAt))
  }

  /** Accepting the request leaves every hold backed by stock, whatever the stock was. */
  ghost predicate NeverOversells(lines: seq<Line>)
  {
    forall s: State, invoice: InvoiceId, expiresAt: Time ::
      Settled(s) && s.procs == [Idle] && Accepts(s.stock, s.counter, lines)
      ==> Settled(AfterReserve(s, invoice, lines, expiresAt))
  }

  lemma TwoLinesOfOneItem(lines: seq<Line>, a: nat, b: nat)
    requires a < |lines| && b < |lines| && a != b && lines[a].item == lines[b].item
    ensures lines[a].qty + lines[b].qty <= LineTotal(lines, lines[a].item)
  {
    var x := lines[a].item;
    SumUpdate(lines, a, Line(x, 0), QtyOf(x));
    SumAtLeast(lines[a := Line(x, 0)], b, QtyOf(x));
  }

  /** One unit less than the lines of `x` ask for together: each passes the check, their sum does not fit. */
  ghost function TightStock(lines: seq<Line>, x: ItemId): State
  {
    State(map i | i in ItemsOf(lines) :: LineTotal(lines, i) - if i == x then 1 else 0, [], map[], [Idle], map[])
  }

  lemma TightStockAccepts(lines: seq<Line>, a: nat, b: nat)
    requires Normalized(lines) && a < |lines| && b < |lines| && a != b && lines[a].item == lines[b].item
    ensures var s := TightStock(lines, lines[a].item); Settled(s) && Accepts(s.stock, s.counter, lines)
  {
    var x := lines[a].item;
    var s := TightStock(lines, x);
    forall k | 0 <= k < |lines| ensures Get(s.stock, lines[k].item) - Get(s.counter, lines[k].item) >= lines[k].qty {
      LineTotalAtLeast(lines, k);
      TwoLinesOfOneItem(lines, a, b);
      if lines[k].item == x {
        TwoLinesOfOneItem(lines, k, if k == a then b else a);
      }
    }
    forall i: ItemId ensures Get(s.counter, i) == InStatus(s.rows, i, Held) <= Get(s.stock, i) {
      LineTotalNonNegative(lines, i);
      TwoLinesOfOneItem(lines, a, b);
    }
  }

  lemma RepeatedItemOversells(lines: seq<Line>, a: nat, b: nat)
    requires Normalized(lines) && a < |lines| && b < |lines| && a != b && lines[a].item == lines[b].item
    ensures !NeverOversells(lines)
  {
    var x := lines[a].item;
    var s := TightStock(lines, x);
    TightStockAccepts(lines, a, b);
    var t := AfterReserve(s, 0, lines, 0);
    NewRowsTotals(s.rows, 0, lines, 0, x, Held);
    assert InStatus(t.rows, x, Held) > Get(t.stock, x);
    assert Settled(t) ==> Get(t.counter, x) == InStatus(t.rows, x, Held) <= Get(t.stock, x);
  }

  /**
   Every line is checked against the same counter before any of them raises it, so a request is
   safe exactly when it names no item twice.
   */
  lemma SafeExactlyWhenDistinct(lines: seq<Line>)
    requires Normalized(lines)
    ensures NeverOversells(lines) <==> DistinctItems(lines)
  {
    if DistinctItems(lines) {
      forall s: State, invoice: InvoiceId, expiresAt: Time
        | Settled(s) && s.procs == [Idle] && Accepts(s.stock, s.counter, lines)
        ensures Settled(AfterReserve(s, invoice, lines, expiresAt))
      {
        ReserveIsSolo(s, invoice, lines, expiresAt, AfterReserve(s, invoice, lines, expiresAt));
      }
    } else {
      var a, b :| 0 <= a < b < |lines| && lines[a].item == lines[b].item;
      RepeatedItemOversells(lines, a, b);
    }
  }
}
