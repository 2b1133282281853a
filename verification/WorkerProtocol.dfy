/**
 The two-store reservation protocol of the reservation worker, statement by statement.

 Hold rows and item stock live in Postgres, a reserved counter per item lives in Redis.
 `reserve` raises the counter before its database commit; `commit`, `release` and the expiry
 scan lower it after theirs.  Any number of processes run these operations at once: what a
 transaction has written but not committed is private to its process, item rows and hold rows
 are locked from the statement that reads them to the end of the transaction, and a process
 may fail or crash between any two statements.
 */
module WorkerProtocol {
  import opened Sums
  import opened Holds

  datatype Mode = Commit | Release

  /** Which HELD rows a settling operation selects for update. */
  datatype Selector = ByInvoice(invoice: InvoiceId) | ExpiredBy(now: Time)

  /** How far a process has got; everything in here is lost when it crashes. */
  datatype Proc =
    | Idle
      // items of lines[..checked] are locked and had enough stock when they were read
    | Reserving(invoice: InvoiceId, lines: seq<Line>, expiresAt: Time, checked: nat)
      // hold rows flushed but not committed; lines[..incremented] are already in Redis
    | Holding(invoice: InvoiceId, lines: seq<Line>, expiresAt: Time, incremented: nat)
      // hold rows locked by SELECT ... FOR UPDATE
    | Selecting(mode: Mode, selector: Selector, ids: set<nat>)
      // commit only: item rows locked and charged so far
    | Charging(invoice: InvoiceId, ids: set<nat>, taken: set<ItemId>)
      // transaction over, counter decrements still to do
    | Owing(debts: seq<Line>)

  /** `drift` is a history variable: per item, what crashes have left in Redis for ever. */
  datatype State = State(
    stock: map<ItemId, int>,
    rows: seq<Row>,
    counter: map<ItemId, int>,
    procs: seq<Proc>,
    drift: map<ItemId, int>)

  datatype Action =
    | BeginReserve(p: nat, invoice: InvoiceId, lines: seq<Line>, expiresAt: Time)
    | CheckLine(p: nat)
    | FlushRows(p: nat)
    | Increment(p: nat)
    | CommitReserve(p: nat)
    | BeginSettle(p: nat, mode: Mode, selector: Selector)
    | LockRow(p: nat, row: nat)
    | CommitRelease(p: nat, debts: seq<Line>)
    | StartCharging(p: nat)
    | ChargeItem(p: nat, item: ItemId)
    | RefuseCharge(p: nat, item: ItemId)
    | CommitCharge(p: nat, debts: seq<Line>)
    | PayDebt(p: nat)
    | Finish(p: nat)
      // an exception inside the transaction: roll back, then undo the increments already made
    | Abort(p: nat)
      // an INCRBY that took effect although its caller saw an error
    | IncrementUnseen(p: nat)
      // a database commit that took effect although its caller saw an error
    | CommitUnseen(p: nat)
    | Crash(p: nat)

  function IncrBy(counter: map<ItemId, int>, i: ItemId, q: int): map<ItemId, int>
  {
    counter[i := Get(counter, i) + q]
  }

  /** DECRBY followed by DEL when nothing positive is left, taken as one atomic step. */
  function DecrOrDelete(counter: map<ItemId, int>, i: ItemId, q: int): map<ItemId, int>
  {
    var remaining := Get(counter, i) - q;
    if remaining <= 0 then counter - {i} else counter[i := remaining]
  }

  predicate Selected(selector: Selector, row: Row)
  {
    && row.status == Held
    && match selector
       case ByInvoice(invoice) => row.invoice == invoice
       case ExpiredBy(now) => row.expiresAt <= now
  }

  ghost function ItemsOf(lines: seq<Line>): set<ItemId>
  {
    set k | 0 <= k < |lines| :: lines[k].item
  }

  ghost function ItemLocks(proc: Proc): set<ItemId>
  {
    match proc
    case Reserving(_, lines, _, checked) => if checked <= |lines| then ItemsOf(lines[..checked]) else {}
    case Holding(_, lines, _, _) => ItemsOf(lines)
    case Charging(_, _, taken) => taken
    case _ => {}
  }

  ghost function RowLocks(proc: Proc): set<nat>
  {
    match proc
    case Selecting(_, _, ids) => ids
    case Charging(_, ids, _) => ids
    case _ => {}
  }

  ghost predicate ItemFree(s: State, p: nat, i: ItemId)
  {
    forall q :: 0 <= q < |s.procs| && q != p ==> i !in ItemLocks(s.procs[q])
  }

  ghost predicate RowFree(s: State, r: nat)
  {
    forall q :: 0 <= q < |s.procs| ==> r !in RowLocks(s.procs[q])
  }

  /** `item_qty_map`: one entry per item of the selected rows, holding their total. */
  ghost predicate Covers(debts: seq<Line>, rows: seq<Row>, ids: set<nat>)
  {
    && DistinctItems(debts)
    && ItemsOf(debts) == RowItems(rows, ids)
    && forall i: ItemId :: LineTotal(debts, i) == ChosenTotal(rows, ids, i)
  }

  function Available(s: State, i: ItemId): int
  {
    Get(s.stock, i) - Get(s.counter, i)
  }

  ghost predicate Enabled(s: State, a: Action)
  {
    && a.p < |s.procs|
    && var proc := s.procs[a.p];
       match a
       case BeginReserve(_, _, lines, _) => proc.Idle? && Normalized(lines)
       case CheckLine(p) =>
         && proc.Reserving? && proc.checked < |proc.lines|
         && var line := proc.lines[proc.checked];
            line.item in s.stock && ItemFree(s, p, line.item) && Available(s, line.item) >= line.qty
       case FlushRows(_) => proc.Reserving? && proc.checked == |proc.lines|
       case Increment(_) => proc.Holding? && proc.incremented < |proc.lines|
       case CommitReserve(_) => proc.Holding? && proc.incremented == |proc.lines|
       case BeginSettle(_, mode, selector) => proc.Idle? && (mode.Commit? ==> selector.ByInvoice?)
       case LockRow(_, r) => proc.Selecting? && r < |s.rows| && Selected(proc.selector, s.rows[r]) && RowFree(s, r)
       case CommitRelease(_, debts) => proc.Selecting? && proc.mode.Release? && Covers(debts, s.rows, proc.ids)
       case StartCharging(_) => proc.Selecting? && proc.mode.Commit? && proc.selector.ByInvoice?
       case ChargeItem(p, i) =>
         && proc.Charging? && i in RowItems(s.rows, proc.ids) - proc.taken && ItemFree(s, p, i)
         && i in s.stock && ChosenTotal(s.rows, proc.ids, i) <= s.stock[i]
       case RefuseCharge(p, i) =>
         && proc.Charging? && i in RowItems(s.rows, proc.ids) - proc.taken && ItemFree(s, p, i)
         && i in s.stock && s.stock[i] < ChosenTotal(s.rows, proc.ids, i)
       case CommitCharge(_, debts) =>
         && proc.Charging? && proc.taken == RowItems(s.rows, proc.ids) && Covers(debts, s.rows, proc.ids)
       case PayDebt(_) => proc.Owing? && proc.debts != []
       case Finish(_) => proc.Owing? && proc.debts == []
       case Abort(_) => !proc.Idle? && !proc.Owing?
       case IncrementUnseen(_) => proc.Holding? && proc.incremented < |proc.lines|
       case CommitUnseen(_) => proc.Holding? && proc.incremented == |proc.lines|
       case Crash(_) => true
  }

  function SetProc(s: State, p: nat, proc: Proc): State
    requires p < |s.procs|
  {
    s.(procs := s.procs[p := proc])
  }

  /** Increments a reserve has made that are not yet undone or committed. */
  ghost function Exposed(proc: Proc): seq<Line>
  {
    match proc
    case Holding(_, lines, _, n) => if n <= |lines| then lines[..n] else []
    case Owing(debts) => debts
    case _ => []
  }

  ghost function AddDrift(drift: map<ItemId, int>, lines: seq<Line>): map<ItemId, int>
  {
    map i | i in drift.Keys + ItemsOf(lines) :: Get(drift, i) + LineTotal(lines, i)
  }

  ghost function Charged(s: State, ids: set<nat>): map<ItemId, int>
  {
    map i | i in s.stock :: s.stock[i] - ChosenTotal(s.rows, ids, i)
  }

  ghost function Apply(s: State, a: Action): State
    requires Enabled(s, a)
  {
    var proc := s.procs[a.p];
    match a
    case BeginReserve(p, invoice, lines, expiresAt) => SetProc(s, p, Reserving(invoice, lines, expiresAt, 0))
    case CheckLine(p) => SetProc(s, p, proc.(checked := proc.checked + 1))
    case FlushRows(p) => SetProc(s, p, Holding(proc.invoice, proc.lines, proc.expiresAt, 0))
    case Increment(p) =>
      var line := proc.lines[proc.incremented];
      SetProc(s, p, proc.(incremented := proc.incremented + 1)).(counter := IncrBy(s.counter, line.item, line.qty))
    case CommitReserve(p) =>
      SetProc(s, p, Idle).(rows := s.rows + NewRows(proc.invoice, proc.lines, proc.expiresAt))
    case BeginSettle(p, mode, selector) => SetProc(s, p, Selecting(mode, selector, {}))
    case LockRow(p, r) => SetProc(s, p, Selecting(proc.mode, proc.selector, proc.ids + {r}))
    case CommitRelease(p, debts) => SetProc(s, p, Owing(debts)).(rows := Mark(s.rows, proc.ids, Released))
    case StartCharging(p) => SetProc(s, p, Charging(proc.selector.invoice, proc.ids, {}))
    case ChargeItem(p, i) => SetProc(s, p, Charging(proc.invoice, proc.ids, proc.taken + {i}))
    case RefuseCharge(p, i) => SetProc(s, p, Idle)
    case CommitCharge(p, debts) =>
      SetProc(s, p, Owing(debts)).(rows := Mark(s.rows, proc.ids, Committed), stock := Charged(s, proc.ids))
    case PayDebt(p) =>
      var line := proc.debts[0];
      SetProc(s, p, Owing(proc.debts[1..])).(counter := DecrOrDelete(s.counter, line.item, line.qty))
    case Finish(p) => SetProc(s, p, Idle)
    case Abort(p) => SetProc(s, p, if proc.Holding? then Owing(Exposed(proc)) else Idle)
    case IncrementUnseen(p) =>
      var line := proc.lines[proc.incremented];
      SetProc(s, p, Owing(Exposed(proc)))
        .(counter := IncrBy(s.counter, line.item, line.qty), drift := AddDrift(s.drift, [line]))
    case CommitUnseen(p) =>
      SetProc(s, p, Owing(proc.lines)).(rows := s.rows + NewRows(proc.invoice, proc.lines, proc.expiresAt))
    case Crash(p) => SetProc(s, p, Idle).(drift := AddDrift(s.drift, Exposed(proc)))
  }

  ghost predicate Executes(s: State, run: seq<Action>, t: State)
    decreases |run|
  {
    if run == [] then s == t else Enabled(s, run[0]) && Executes(Apply(s, run[0]), run[1..], t)
  }

  /** All processes idle, counters exact, every hold backed by stock. */
  ghost predicate Settled(s: State)
  {
    && (forall p :: 0 <= p < |s.procs| ==> s.procs[p].Idle?)
    && (forall i: ItemId :: Get(s.counter, i) == InStatus(s.rows, i, Held) <= Get(s.stock, i))
    && s.drift == map[]
  }

  /** Requests name distinct items and no database commit takes effect behind its caller's back. */
  ghost predicate Sound(run: seq<Action>)
  {
    forall k :: 0 <= k < |run| ==>
      !run[k].CommitUnseen? && (run[k].BeginReserve? ==> DistinctItems(run[k].lines))
  }

  ghost predicate FaultFree(run: seq<Action>)
  {
    forall k :: 0 <= k < |run| ==> !run[k].Crash? && !run[k].IncrementUnseen?
  }

  // ---------- the invariant ----------

  ghost function OwedBy(i: ItemId): Proc -> int
  {
    (proc: Proc) => LineTotal(Exposed(proc), i)
  }

  /** Increments not yet committed plus decrements not yet paid off. */
  ghost function Owed(procs: seq<Proc>, i: ItemId): int
  {
    Sum(procs, OwedBy(i))
  }

  ghost predicate Balanced(s: State)
  {
    forall i: ItemId :: Get(s.counter, i) == InStatus(s.rows, i, Held) + Owed(s.procs, i) + Get(s.drift, i)
  }

  ghost predicate DriftNonNegative(s: State)
  {
    forall i: ItemId :: Get(s.drift, i) >= 0
  }

  ghost predicate Backed(s: State)
  {
    forall i: ItemId :: InStatus(s.rows, i, Held) <= Get(s.stock, i)
  }

  ghost predicate Exclusive(s: State)
  {
    forall p, q :: 0 <= p < q < |s.procs| ==>
      ItemLocks(s.procs[p]) !! ItemLocks(s.procs[q]) && RowLocks(s.procs[p]) !! RowLocks(s.procs[q])
  }

  /** The stock a checked line relies on is still there while its item row is locked. */
  ghost predicate Promised(s: State, line: Line)
  {
    InStatus(s.rows, line.item, Held) + line.qty <= Get(s.stock, line.item)
  }

  ghost predicate HeldRows(s: State, ids: set<nat>)
  {
    forall r :: r in ids ==> r < |s.rows| && s.rows[r].status == Held
  }

  ghost predicate ProcOk(s: State, proc: Proc)
  {
    match proc
    case Reserving(_, lines, _, checked) =>
      DistinctItems(lines) && checked <= |lines| && forall k :: 0 <= k < checked ==> Promised(s, lines[k])
    case Holding(_, lines, _, n) =>
      DistinctItems(lines) && n <= |lines| && forall k :: 0 <= k < |lines| ==> Promised(s, lines[k])
    case Selecting(_, _, ids) => HeldRows(s, ids)
    case Charging(_, ids, taken) => HeldRows(s, ids) && taken <= RowItems(s.rows, ids) * s.stock.Keys
    case _ => true
  }

  ghost predicate Inv(s: State)
  {
    && Balanced(s) && DriftNonNegative(s) && Backed(s) && Exclusive(s)
    && forall p :: 0 <= p < |s.procs| ==> ProcOk(s, s.procs[p])
  }

  lemma SettledInv(s: State)
    requires Settled(s)
    ensures Inv(s)
  {
    forall i: ItemId
      ensures Get(s.counter, i) == InStatus(s.rows, i, Held) + Owed(s.procs, i) + Get(s.drift, i)
    {
      SumZero(s.procs, OwedBy(i));
    }
  }

  lemma OwedAfter(s: State, p: nat, proc: Proc, i: ItemId)
    requires p < |s.procs|
    ensures Owed(s.procs[p := proc], i)
         == Owed(s.procs, i) - LineTotal(Exposed(s.procs[p]), i) + LineTotal(Exposed(proc), i)
  {
    SumUpdate(s.procs, p, proc, OwedBy(i));
  }

  lemma OwedAtLeast(s: State, p: nat, i: ItemId)
    requires p < |s.procs|
    ensures 0 <= LineTotal(Exposed(s.procs[p]), i) <= Owed(s.procs, i)
  {
    forall k | 0 <= k < |s.procs| ensures OwedBy(i)(s.procs[k]) >= 0 {
      LineTotalNonNegative(Exposed(s.procs[k]), i);
    }
    SumAtLeast(s.procs, p, OwedBy(i));
  }

  /** Whatever happened, the counter never falls below the quantity on hold. */
  lemma CounterCoversHeld(s: State, i: ItemId)
    requires Balanced(s) && DriftNonNegative(s)
    ensures 0 <= InStatus(s.rows, i, Held) <= Get(s.counter, i)
  {
    InStatusNonNegative(s.rows, i, Held);
    forall k | 0 <= k < |s.procs| ensures OwedBy(i)(s.procs[k]) >= 0 {
      LineTotalNonNegative(Exposed(s.procs[k]), i);
    }
    SumNonNegative(s.procs, OwedBy(i));
  }

  /** What process `p` may change while the others hold their locks. */
  ghost predicate Frame(s: State, t: State, p: nat)
    requires p < |s.procs|
  {
    && |t.procs| == |s.procs| && |s.rows| <= |t.rows| && t.stock.Keys == s.stock.Keys
    && (forall q :: 0 <= q < |s.procs| && q != p ==> t.procs[q] == s.procs[q])
    && (forall r :: 0 <= r < |s.rows| ==> t.rows[r].item == s.rows[r].item)
    && (forall r :: 0 <= r < |s.rows| && r !in RowLocks(s.procs[p]) ==> t.rows[r] == s.rows[r])
    && (forall i :: i !in ItemLocks(s.procs[p]) ==>
          InStatus(t.rows, i, Held) <= InStatus(s.rows, i, Held) && Get(t.stock, i) == Get(s.stock, i))
  }

  lemma FrameKeepsPromise(s: State, t: State, p: nat, q: nat, line: Line)
    requires Exclusive(s) && p < |s.procs| && q < |s.procs| && p != q && Frame(s, t, p)
    requires line.item in ItemLocks(s.procs[q]) && Promised(s, line)
    ensures Promised(t, line)
  {
    assert if p < q then ItemLocks(s.procs[p]) !! ItemLocks(s.procs[q]) else ItemLocks(s.procs[q]) !! ItemLocks(s.procs[p]);
  }

  lemma OthersKeepOk(s: State, t: State, p: nat, q: nat)
    requires Inv(s) && p < |s.procs| && q < |s.procs| && p != q && Frame(s, t, p)
    ensures ProcOk(t, t.procs[q])
  {
    var proc := s.procs[q];
    assert ProcOk(s, proc);
    match proc
    case Reserving(_, lines, _, checked) =>
      forall k | 0 <= k < checked ensures Promised(t, lines[k]) {
        assert lines[..checked][k] == lines[k];
        FrameKeepsPromise(s, t, p, q, lines[k]);
      }
    case Holding(_, lines, _, _) =>
      forall k | 0 <= k < |lines| ensures Promised(t, lines[k]) {
        FrameKeepsPromise(s, t, p, q, lines[k]);
      }
    case Selecting(_, _, ids) =>
      assert if p < q then RowLocks(s.procs[p]) !! ids else ids !! RowLocks(s.procs[p]);
    case Charging(_, ids, taken) =>
      assert if p < q then RowLocks(s.procs[p]) !! ids else ids !! RowLocks(s.procs[p]);
      assert RowItems(t.rows, ids) == RowItems(s.rows, ids);
    case _ =>
  }

  lemma ExclusiveAfter(s: State, t: State, p: nat)
    requires Exclusive(s) && p < |s.procs| && |t.procs| == |s.procs|
    requires forall q :: 0 <= q < |s.procs| && q != p ==> t.procs[q] == s.procs[q]
    requires forall i :: i in ItemLocks(t.procs[p]) ==> i in ItemLocks(s.procs[p]) || ItemFree(s, p, i)
    requires forall r :: r in RowLocks(t.procs[p]) ==> r in RowLocks(s.procs[p]) || RowFree(s, r)
    ensures Exclusive(t)
  {
    forall q | 0 <= q < |s.procs| && q != p
      ensures ItemLocks(t.procs[p]) !! ItemLocks(t.procs[q]) && RowLocks(t.procs[p]) !! RowLocks(t.procs[q])
    {
      assert if p < q then ItemLocks(s.procs[p]) !! ItemLocks(s.procs[q]) && RowLocks(s.procs[p]) !! RowLocks(s.procs[q])
             else ItemLocks(s.procs[q]) !! ItemLocks(s.procs[p]) && RowLocks(s.procs[q]) !! RowLocks(s.procs[p]);
    }
  }

  /** Steps that write neither database table: locking, checking, Redis traffic, failures. */
  ghost predicate LeavesTables(a: Action)
  {
    !a.CommitReserve? && !a.CommitUnseen? && !a.CommitRelease? && !a.CommitCharge?
  }

  lemma CheckLineOk(s: State, p: nat)
    requires Inv(s) && Enabled(s, CheckLine(p))
    ensures var t := Apply(s, CheckLine(p)); Exclusive(t) && ProcOk(t, t.procs[p])
  {
    var t := Apply(s, CheckLine(p));
    var lines, n := s.procs[p].lines, s.procs[p].checked;
    assert ProcOk(s, s.procs[p]);
    assert lines[..n + 1] == lines[..n] + [lines[n]];
    assert ItemsOf(lines[..n + 1]) == ItemsOf(lines[..n]) + {lines[n].item};
    CounterCoversHeld(s, lines[n].item);
    assert Promised(s, lines[n]);
    ExclusiveAfter(s, t, p);
  }

  lemma FlushRowsOk(s: State, p: nat)
    requires Inv(s) && Enabled(s, FlushRows(p))
    ensures var t := Apply(s, FlushRows(p)); Exclusive(t) && ProcOk(t, t.procs[p])
  {
    var t := Apply(s, FlushRows(p));
    assert ProcOk(s, s.procs[p]);
    assert s.procs[p].lines[..s.procs[p].checked] == s.procs[p].lines;
    ExclusiveAfter(s, t, p);
  }

  lemma LockingOk(s: State, a: Action)
    requires Inv(s) && Enabled(s, a) && (a.LockRow? || a.ChargeItem? || a.StartCharging? || a.Increment?)
    ensures var t := Apply(s, a); Exclusive(t) && ProcOk(t, t.procs[a.p])
  {
    assert ProcOk(s, s.procs[a.p]);
    ExclusiveAfter(s, Apply(s, a), a.p);
  }

  lemma UnlockedOk(s: State, a: Action)
    requires Inv(s) && Enabled(s, a) && LeavesTables(a)
    requires !(a.CheckLine? || a.FlushRows? || a.LockRow? || a.ChargeItem? || a.StartCharging? || a.Increment?)
    requires a.BeginReserve? ==> DistinctItems(a.lines)
    ensures var t := Apply(s, a); Frame(s, t, a.p) && Exclusive(t) && ProcOk(t, t.procs[a.p])
  {
    var t := Apply(s, a);
    assert t.stock == s.stock && t.rows == s.rows;
    assert ItemLocks(t.procs[a.p]) == {} && RowLocks(t.procs[a.p]) == {};
    ExclusiveAfter(s, t, a.p);
  }

  lemma TablesUntouched(s: State, a: Action)
    requires Inv(s) && Enabled(s, a) && LeavesTables(a)
    requires a.BeginReserve? ==> DistinctItems(a.lines)
    ensures var t := Apply(s, a); Frame(s, t, a.p) && Exclusive(t) && ProcOk(t, t.procs[a.p])
  {
    var t := Apply(s, a);
    assert t.stock == s.stock && t.rows == s.rows;
    if a.CheckLine? {
      CheckLineOk(s, a.p);
    } else if a.FlushRows? {
      FlushRowsOk(s, a.p);
    } else if a.LockRow? || a.ChargeItem? || a.StartCharging? || a.Increment? {
      LockingOk(s, a);
    } else {
      UnlockedOk(s, a);
    }
  }

  lemma DriftAfter(drift: map<ItemId, int>, lines: seq<Line>, i: ItemId)
    ensures Get(AddDrift(drift, lines), i) == Get(drift, i) + LineTotal(lines, i)
  {
    if i !in ItemsOf(lines) {
      forall k | 0 <= k < |lines| ensures lines[k].item != i { assert lines[k].item in ItemsOf(lines); }
      LineTotalAbsent(lines, i);
    }
  }

  lemma LineTotalOne(line: Line, i: ItemId)
    ensures LineTotal([line], i) == if line.item == i then line.qty else 0
  {
    LineTotalHead([line], i);
    assert LineTotal([], i) == 0;
  }

  /** A step keeps the balance of item `i` when counter, exposure and drift move together. */
  ghost predicate MovesTogether(s: State, t: State, p: nat, i: ItemId)
    requires p < |s.procs| && p < |t.procs|
  {
    && Get(t.counter, i) - Get(s.counter, i)
       == LineTotal(Exposed(t.procs[p]), i) - LineTotal(Exposed(s.procs[p]), i) + Get(t.drift, i) - Get(s.drift, i)
    && Get(t.drift, i) >= Get(s.drift, i)
  }

  lemma IncrementMoves(s: State, p: nat, i: ItemId)
    requires Inv(s) && Enabled(s, Increment(p))
    ensures MovesTogether(s, Apply(s, Increment(p)), p, i)
  {
    var proc := s.procs[p];
    var t := Apply(s, Increment(p));
    LineTotalSnoc(proc.lines, proc.incremented, i);
    assert Exposed(t.procs[p]) == proc.lines[..proc.incremented + 1];
  }

  lemma DriftOneLine(drift: map<ItemId, int>, line: Line, i: ItemId)
    ensures Get(AddDrift(drift, [line]), i) == Get(drift, i) + if line.item == i then line.qty else 0
  {
    DriftAfter(drift, [line], i);
    LineTotalOne(line, i);
  }

  lemma IncrementUnseenMoves(s: State, p: nat, i: ItemId)
    requires Enabled(s, IncrementUnseen(p))
    ensures MovesTogether(s, Apply(s, IncrementUnseen(p)), p, i)
  {
    var proc := s.procs[p];
    DriftOneLine(s.drift, proc.lines[proc.incremented], i);
    assert Exposed(Apply(s, IncrementUnseen(p)).procs[p]) == Exposed(proc);
  }

  /** A debt is never larger than what is left in Redis, so deleting the key loses nothing. */
  lemma PayDebtMoves(s: State, p: nat, i: ItemId)
    requires Inv(s) && Enabled(s, PayDebt(p))
    ensures MovesTogether(s, Apply(s, PayDebt(p)), p, i)
  {
    var debts := s.procs[p].debts;
    LineTotalHead(debts, i);
    OwedAtLeast(s, p, debts[0].item);
    LineTotalAtLeast(debts, 0);
    InStatusNonNegative(s.rows, debts[0].item, Held);
    assert Get(s.counter, debts[0].item) >= debts[0].qty;
  }

  lemma OtherwiseMoves(s: State, a: Action, i: ItemId)
    requires Inv(s) && Enabled(s, a) && LeavesTables(a)
    requires !a.Increment? && !a.IncrementUnseen? && !a.PayDebt?
    ensures MovesTogether(s, Apply(s, a), a.p, i)
  {
    var t := Apply(s, a);
    var proc := s.procs[a.p];
    if a.Crash? {
      DriftAfter(s.drift, Exposed(proc), i);
      LineTotalNonNegative(Exposed(proc), i);
    } else {
      assert Exposed(t.procs[a.p]) == Exposed(proc);
    }
  }

  lemma TablesUntouchedBalanced(s: State, a: Action)
    requires Inv(s) && Enabled(s, a) && LeavesTables(a)
    ensures Balanced(Apply(s, a)) && DriftNonNegative(Apply(s, a))
  {
    var p, t := a.p, Apply(s, a);
    forall i: ItemId
      ensures Get(t.counter, i) == InStatus(t.rows, i, Held) + Owed(t.procs, i) + Get(t.drift, i)
      ensures Get(t.drift, i) >= 0
    {
      if a.Increment? {
        IncrementMoves(s, p, i);
      } else if a.IncrementUnseen? {
        IncrementUnseenMoves(s, p, i);
      } else if a.PayDebt? {
        PayDebtMoves(s, p, i);
      } else {
        OtherwiseMoves(s, a, i);
      }
      OwedAfter(s, p, t.procs[p], i);
      assert t.procs == s.procs[p := t.procs[p]];
    }
  }

  lemma AllKeepOk(s: State, t: State, p: nat)
    requires Inv(s) && p < |s.procs| && Frame(s, t, p) && ProcOk(t, t.procs[p])
    requires ItemLocks(t.procs[p]) == {} && RowLocks(t.procs[p]) == {}
    ensures Exclusive(t) && forall q :: 0 <= q < |t.procs| ==> ProcOk(t, t.procs[q])
  {
    ExclusiveAfter(s, t, p);
    forall q | 0 <= q < |s.procs| && q != p ensures ProcOk(t, t.procs[q]) {
      OthersKeepOk(s, t, p, q);
    }
  }

  lemma ReserveMoves(s: State, p: nat, i: ItemId)
    requires Inv(s) && Enabled(s, CommitReserve(p))
    ensures var t := Apply(s, CommitReserve(p));
            var asked := LineTotal(s.procs[p].lines, i);
            && InStatus(t.rows, i, Held) == InStatus(s.rows, i, Held) + asked
            && Owed(t.procs, i) == Owed(s.procs, i) - asked
            && InStatus(t.rows, i, Held) <= Get(t.stock, i)
            && (i !in ItemLocks(s.procs[p]) ==> asked == 0)
  {
    var proc := s.procs[p];
    var lines := proc.lines;
    assert ProcOk(s, proc);
    assert Exposed(proc) == lines;
    NewRowsTotals(s.rows, proc.invoice, lines, proc.expiresAt, i, Held);
    OwedAfter(s, p, Idle, i);
    LineTotalAbsent([], i);
    if k :| 0 <= k < |lines| && lines[k].item == i {
      LineTotalDistinct(lines, k);
      assert Promised(s, lines[k]);
    } else {
      LineTotalAbsent(lines, i);
    }
  }

  lemma ReserveCommits(s: State, p: nat)
    requires Inv(s) && Enabled(s, CommitReserve(p))
    ensures Inv(Apply(s, CommitReserve(p)))
  {
    var t := Apply(s, CommitReserve(p));
    forall i: ItemId
      ensures Get(t.counter, i) == InStatus(t.rows, i, Held) + Owed(t.procs, i) + Get(t.drift, i)
      ensures InStatus(t.rows, i, Held) <= Get(t.stock, i)
      ensures i !in ItemLocks(s.procs[p]) ==> InStatus(t.rows, i, Held) == InStatus(s.rows, i, Held)
    {
      ReserveMoves(s, p, i);
    }
    assert Frame(s, t, p);
    AllKeepOk(s, t, p);
  }

  lemma DebtsOwed(s: State, p: nat, debts: seq<Line>, total: int, i: ItemId)
    requires p < |s.procs| && Exposed(s.procs[p]) == [] && LineTotal(debts, i) == total
    ensures Owed(s.procs[p := Owing(debts)], i) == Owed(s.procs, i) + total
  {
    OwedAfter(s, p, Owing(debts), i);
    LineTotalAbsent([], i);
  }

  lemma ChosenElsewhere(rows: seq<Row>, ids: set<nat>, i: ItemId)
    requires i !in RowItems(rows, ids)
    ensures ChosenTotal(rows, ids, i) == 0
  {
    ChosenNothing(rows, ids, i);
  }

  /** What the database commit of `commit`, `release` or the expiry scan does to one item. */
  lemma SettleMoves(s: State, p: nat, ids: set<nat>, debts: seq<Line>, to: Status, i: ItemId)
    requires p < |s.procs| && Exposed(s.procs[p]) == []
    requires LineTotal(debts, i) == ChosenTotal(s.rows, ids, i) && HeldRows(s, ids) && to != Held
    ensures InStatus(Mark(s.rows, ids, to), i, Held) == InStatus(s.rows, i, Held) - ChosenTotal(s.rows, ids, i)
    ensures Owed(s.procs[p := Owing(debts)], i) == Owed(s.procs, i) + ChosenTotal(s.rows, ids, i)
    ensures 0 <= ChosenTotal(s.rows, ids, i)
    ensures i !in RowItems(s.rows, ids) ==> ChosenTotal(s.rows, ids, i) == 0
  {
    MarkTotals(s.rows, ids, to, i, Held);
    DebtsOwed(s, p, debts, ChosenTotal(s.rows, ids, i), i);
    ChosenNonNegative(s.rows, ids, i);
    if i !in RowItems(s.rows, ids) {
      ChosenElsewhere(s.rows, ids, i);
    }
  }

  lemma ReleaseCommits(s: State, p: nat, debts: seq<Line>)
    requires Inv(s) && Enabled(s, CommitRelease(p, debts))
    ensures Inv(Apply(s, CommitRelease(p, debts)))
  {
    var t := Apply(s, CommitRelease(p, debts));
    var ids := s.procs[p].ids;
    assert ProcOk(s, s.procs[p]);
    forall i: ItemId
      ensures InStatus(t.rows, i, Held) == InStatus(s.rows, i, Held) - ChosenTotal(s.rows, ids, i)
      ensures InStatus(t.rows, i, Held) <= InStatus(s.rows, i, Held)
      ensures Owed(t.procs, i) == Owed(s.procs, i) + ChosenTotal(s.rows, ids, i)
    {
      SettleMoves(s, p, ids, debts, Released, i);
    }
    AllKeepOk(s, t, p);
  }

  lemma ChargeMoves(s: State, p: nat, debts: seq<Line>, i: ItemId)
    requires Inv(s) && Enabled(s, CommitCharge(p, debts))
    ensures var t := Apply(s, CommitCharge(p, debts));
            var total := ChosenTotal(s.rows, s.procs[p].ids, i);
            && 0 <= total
            && InStatus(t.rows, i, Held) == InStatus(s.rows, i, Held) - total
            && Get(t.stock, i) == Get(s.stock, i) - total
            && Owed(t.procs, i) == Owed(s.procs, i) + total
            && (i !in s.procs[p].taken ==> total == 0)
  {
    assert ProcOk(s, s.procs[p]);
    SettleMoves(s, p, s.procs[p].ids, debts, Committed, i);
  }

  lemma ChargeFrame(s: State, p: nat, debts: seq<Line>)
    requires Inv(s) && Enabled(s, CommitCharge(p, debts))
    ensures Frame(s, Apply(s, CommitCharge(p, debts)), p)
  {
    var t := Apply(s, CommitCharge(p, debts));
    assert s.procs[p].ids == RowLocks(s.procs[p]);
    assert t.rows == Mark(s.rows, s.procs[p].ids, Committed);
    forall i | i !in ItemLocks(s.procs[p])
      ensures InStatus(t.rows, i, Held) <= InStatus(s.rows, i, Held) && Get(t.stock, i) == Get(s.stock, i)
    {
      ChargeMoves(s, p, debts, i);
    }
  }

  lemma ChargeBalanced(s: State, p: nat, debts: seq<Line>)
    requires Inv(s) && Enabled(s, CommitCharge(p, debts))
    ensures var t := Apply(s, CommitCharge(p, debts)); Balanced(t) && DriftNonNegative(t) && Backed(t)
  {
    var t := Apply(s, CommitCharge(p, debts));
    forall i: ItemId
      ensures Get(t.counter, i) == InStatus(t.rows, i, Held) + Owed(t.procs, i) + Get(t.drift, i)
      ensures InStatus(t.rows, i, Held) <= Get(t.stock, i)
    {
      ChargeMoves(s, p, debts, i);
    }
  }

  lemma ChargeCommits(s: State, p: nat, debts: seq<Line>)
    requires Inv(s) && Enabled(s, CommitCharge(p, debts))
    ensures Inv(Apply(s, CommitCharge(p, debts)))
  {
    var t := Apply(s, CommitCharge(p, debts));
    assert t.procs[p] == Owing(debts) && ItemLocks(t.procs[p]) == {} && RowLocks(t.procs[p]) == {};
    ChargeBalanced(s, p, debts);
    ChargeFrame(s, p, debts);
    AllKeepOk(s, t, p);
  }

  lemma StepKeepsInv(s: State, a: Action)
    requires Inv(s) && Enabled(s, a) && Sound([a])
    ensures Inv(Apply(s, a))
  {
    var p, t := a.p, Apply(s, a);
    assert ProcOk(s, s.procs[p]);
    assert [a][0] == a;
    if a.CommitReserve? {
      ReserveCommits(s, p);
    } else if a.CommitRelease? {
      ReleaseCommits(s, p, a.debts);
    } else if a.CommitCharge? {
      ChargeCommits(s, p, a.debts);
    } else {
      assert !a.CommitUnseen?;
      TablesUntouched(s, a);
      TablesUntouchedBalanced(s, a);
      forall q | 0 <= q < |s.procs| ensures ProcOk(t, t.procs[q]) {
        if q != p { OthersKeepOk(s, t, p, q); }
      }
    }
  }

  lemma {:induction false} RunKeepsInv(s: State, run: seq<Action>, t: State)
    requires Inv(s) && Executes(s, run, t) && Sound(run)
    ensures Inv(t)
    decreases |run|
  {
    if run != [] {
      StepKeepsInv(s, run[0]);
      RunKeepsInv(Apply(s, run[0]), run[1..], t);
    }
  }

  // ---------- what holds over every run ----------

  /** Interleavings, failures and crashes included: the counter covers the holds and the stock backs them. */
  lemma NoOversell(s: State, run: seq<Action>, t: State)
    requires Settled(s) && Executes(s, run, t) && Sound(run)
    ensures forall i: ItemId :: 0 <= InStatus(t.rows, i, Held) <= Get(t.counter, i)
    ensures forall i: ItemId :: InStatus(t.rows, i, Held) <= Get(t.stock, i)
  {
    SettledInv(s);
    RunKeepsInv(s, run, t);
    forall i: ItemId ensures 0 <= InStatus(t.rows, i, Held) <= Get(t.counter, i) {
      CounterCoversHeld(t, i);
    }
  }

  /** `commit` never finds less stock than its held rows need, so its error branch is dead. */
  lemma CommitNeverShort(s: State, run: seq<Action>, t: State, p: nat, item: ItemId)
    requires Settled(s) && Executes(s, run, t) && Sound(run)
    ensures !Enabled(t, RefuseCharge(p, item))
  {
    SettledInv(s);
    RunKeepsInv(s, run, t);
    if p < |t.procs| && t.procs[p].Charging? {
      assert ProcOk(t, t.procs[p]);
      ChosenWithinHeld(t.rows, t.procs[p].ids, item);
      assert InStatus(t.rows, item, Held) <= Get(t.stock, item);
    }
  }

  /** Stock only ever leaves by being committed. */
  ghost function OnHandOrSold(s: State, i: ItemId): int
  {
    Get(s.stock, i) + InStatus(s.rows, i, Committed)
  }

  lemma StepKeepsSold(s: State, a: Action, i: ItemId)
    requires Inv(s) && Enabled(s, a)
    ensures OnHandOrSold(Apply(s, a), i) == OnHandOrSold(s, i)
  {
    var proc := s.procs[a.p];
    assert ProcOk(s, proc);
    if a.CommitReserve? || a.CommitUnseen? {
      NewRowsTotals(s.rows, proc.invoice, proc.lines, proc.expiresAt, i, Committed);
    } else if a.CommitRelease? {
      MarkTotals(s.rows, proc.ids, Released, i, Committed);
    } else if a.CommitCharge? {
      MarkTotals(s.rows, proc.ids, Committed, i, Committed);
      ChargeMoves(s, a.p, a.debts, i);
    }
  }

  /** What is on hand and what has been committed add up to the same number for ever. */
  lemma {:induction false} StockIsSold(s: State, run: seq<Action>, t: State, i: ItemId)
    requires Inv(s) && Executes(s, run, t) && Sound(run)
    ensures OnHandOrSold(t, i) == OnHandOrSold(s, i)
    decreases |run|
  {
    if run != [] {
      StepKeepsSold(s, run[0], i);
      assert Sound([run[0]]);
      StepKeepsInv(s, run[0]);
      StockIsSold(Apply(s, run[0]), run[1..], t, i);
    }
  }

  /** The rows a process has locked are its invoice's, or had expired when it read the clock. */
  ghost predicate LockedForCause(rows: seq<Row>, proc: Proc)
  {
    match proc
    case Selecting(_, ByInvoice(invoice), ids) => forall r :: r in ids ==> r < |rows| && rows[r].invoice == invoice
    case Selecting(_, ExpiredBy(now), ids) => forall r :: r in ids ==> r < |rows| && rows[r].expiresAt <= now
    case Charging(invoice, ids, _) => forall r :: r in ids ==> r < |rows| && rows[r].invoice == invoice
    case _ => true
  }

  ghost predicate AllLockedForCause(s: State)
  {
    forall p :: 0 <= p < |s.procs| ==> LockedForCause(s.rows, s.procs[p])
  }

  /** Rows are appended, and of the old ones only the status may change. */
  ghost predicate OnlyStatusChanges(rows: seq<Row>, after: seq<Row>)
  {
    |rows| <= |after| && forall r :: 0 <= r < |rows| ==> after[r] == rows[r].(status := after[r].status)
  }

  lemma StepChangesStatus(s: State, a: Action)
    requires Enabled(s, a)
    ensures OnlyStatusChanges(s.rows, Apply(s, a).rows)
  {
  }

  lemma CauseStays(rows: seq<Row>, after: seq<Row>, proc: Proc)
    requires LockedForCause(rows, proc) && OnlyStatusChanges(rows, after)
    ensures LockedForCause(after, proc)
  {
  }

  lemma StepKeepsCause(s: State, a: Action)
    requires AllLockedForCause(s) && Enabled(s, a)
    ensures AllLockedForCause(Apply(s, a))
  {
    var t := Apply(s, a);
    StepChangesStatus(s, a);
    assert LockedForCause(s.rows, s.procs[a.p]);
    assert LockedForCause(s.rows, t.procs[a.p]);
    forall p | 0 <= p < |t.procs| ensures LockedForCause(t.rows, t.procs[p]) {
      CauseStays(s.rows, t.rows, t.procs[p]);
    }
  }

  lemma {:induction false} RunKeepsCause(s: State, run: seq<Action>, t: State)
    requires AllLockedForCause(s) && Executes(s, run, t)
    ensures AllLockedForCause(t)
    decreases |run|
  {
    if run != [] {
      StepKeepsCause(s, run[0]);
      RunKeepsCause(Apply(s, run[0]), run[1..], t);
    }
  }

  /**
   In any run, faults included, a hold ends in one of three ways: released for its own invoice,
   released by an expiry scan once its time is up, or committed for its own invoice.
   */
  lemma HoldEndsForCause(s: State, run: seq<Action>, t: State, a: Action, r: nat)
    requires (forall p :: 0 <= p < |s.procs| ==> s.procs[p].Idle?) && Executes(s, run, t) && Enabled(t, a)
    requires r < |t.rows| && t.rows[r].status == Held && Apply(t, a).rows[r].status != Held
    ensures var proc := t.procs[a.p];
            || (a.CommitRelease? && Apply(t, a).rows[r] == t.rows[r].(status := Released)
                && match proc.selector {
                     case ByInvoice(invoice) => t.rows[r].invoice == invoice
                     case ExpiredBy(now) => t.rows[r].expiresAt <= now
                   })
            || (a.CommitCharge? && Apply(t, a).rows[r] == t.rows[r].(status := Committed) && t.rows[r].invoice == proc.invoice)
  {
    RunKeepsCause(s, run, t);
    assert LockedForCause(t.rows, t.procs[a.p]);
  }

  lemma {:induction false} NoFaultsNoDrift(s: State, run: seq<Action>, t: State)
    requires Executes(s, run, t) && FaultFree(run)
    ensures t.drift == s.drift
    decreases |run|
  {
    if run != [] {
      assert !run[0].Crash? && !run[0].IncrementUnseen?;
      assert Apply(s, run[0]).drift == s.drift;
      NoFaultsNoDrift(Apply(s, run[0]), run[1..], t);
    }
  }

  /**
   Without crashes the counter is the held quantity plus exactly the increments not yet
   committed and the decrements not yet paid; once every process is idle it is exact again.
   */
  lemma ExactWithoutFaults(s: State, run: seq<Action>, t: State)
    requires Settled(s) && Executes(s, run, t) && Sound(run) && FaultFree(run)
    ensures forall i: ItemId :: Get(t.counter, i) == InStatus(t.rows, i, Held) + Owed(t.procs, i)
    ensures (forall p :: 0 <= p < |t.procs| ==> t.procs[p].Idle?) ==>
              Settled(t) && forall i: ItemId :: Available(t, i) == Get(t.stock, i) - InStatus(t.rows, i, Held)
  {
    SettledInv(s);
    RunKeepsInv(s, run, t);
    NoFaultsNoDrift(s, run, t);
    if forall p :: 0 <= p < |t.procs| ==> t.procs[p].Idle? {
      forall i: ItemId ensures Get(t.counter, i) == InStatus(t.rows, i, Held) <= Get(t.stock, i) {
        SumZero(t.procs, OwedBy(i));
      }
    }
  }

  /** Why `Sound` excludes it: an unseen commit leaves the counter short by the whole request. */
  lemma UnseenCommitUnderstates(s: State, p: nat, i: ItemId)
    requires Inv(s) && Enabled(s, CommitUnseen(p))
    ensures var t := Apply(s, CommitUnseen(p));
            Get(t.counter, i) == InStatus(t.rows, i, Held) + Owed(t.procs, i) + Get(t.drift, i)
                                 - LineTotal(s.procs[p].lines, i)
  {
    var proc := s.procs[p];
    UnseenMoves(s, p, proc.invoice, proc.lines, proc.expiresAt, i);
  }

  lemma UnseenMoves(s: State, p: nat, invoice: InvoiceId, lines: seq<Line>, expiresAt: Time, i: ItemId)
    requires p < |s.procs| && s.procs[p] == Holding(invoice, lines, expiresAt, |lines|)
    ensures InStatus(s.rows + NewRows(invoice, lines, expiresAt), i, Held) == InStatus(s.rows, i, Held) + LineTotal(lines, i)
    ensures Owed(s.procs[p := Owing(lines)], i) == Owed(s.procs, i)
  {
    assert Exposed(s.procs[p]) == lines;
    NewRowsTotals(s.rows, invoice, lines, expiresAt, i, Held);
    OwedAfter(s, p, Owing(lines), i);
  }

  /** `t` can be reached from `s` without any fault, with requests that name distinct items. */
  ghost predicate Reaches(s: State, t: State)
  {
    exists run :: Executes(s, run, t) && Sound(run) && FaultFree(run)
  }

  lemma ReachesItself(s: State)
    ensures Reaches(s, s)
  {
    assert Executes(s, [], s) && Sound([]) && FaultFree([]);
  }

  lemma {:induction false} ExecutesOneMore(s: State, run: seq<Action>, t: State, a: Action)
    requires Executes(s, run, t) && Enabled(t, a)
    ensures Executes(s, run + [a], Apply(t, a))
    decreases |run|
  {
    if run == [] {
      assert run + [a] == [a];
      assert Executes(Apply(t, a), [a][1..], Apply(t, a));
    } else {
      ExecutesOneMore(Apply(s, run[0]), run[1..], t, a);
      assert (run + [a])[1..] == run[1..] + [a];
    }
  }

  lemma ReachesStep(s: State, t: State, a: Action)
    requires Reaches(s, t) && Enabled(t, a) && Sound([a]) && FaultFree([a])
    ensures Reaches(s, Apply(t, a))
  {
    var run :| Executes(s, run, t) && Sound(run) && FaultFree(run);
    ExecutesOneMore(s, run, t, a);
    assert [a][0] == a;
    assert Sound(run + [a]) && FaultFree(run + [a]);
  }

  lemma {:induction false} ReachesTransitive(s: State, t: State, u: State)
    requires Reaches(s, t) && Reaches(t, u)
    ensures Reaches(s, u)
  {
    var run :| Executes(t, run, u) && Sound(run) && FaultFree(run);
    ReachesAlong(s, t, run, u);
  }

  lemma {:induction false} ReachesAlong(s: State, t: State, run: seq<Action>, u: State)
    requires Reaches(s, t) && Executes(t, run, u) && Sound(run) && FaultFree(run)
    ensures Reaches(s, u)
    decreases |run|
  {
    if run != [] {
      assert Sound([run[0]]) && FaultFree([run[0]]);
      ReachesStep(s, t, run[0]);
      ReachesAlong(s, Apply(t, run[0]), run[1..], u);
    }
  }

  // ---------- one process working alone ----------

  /** A fault-free step of the only process there is. */
  lemma SoloStep(s: State, t: State, a: Action, u: State)
    requires Reaches(s, t) && |t.procs| == 1 && Enabled(t, a) && Sound([a]) && FaultFree([a])
    requires u.procs == [Apply(t, a).procs[0]] && u == Apply(t, a).(procs := u.procs)
    ensures Reaches(s, u)
  {
    ReachesStep(s, t, a);
    assert Apply(t, a).procs == u.procs;
  }

  function IncrAll(counter: map<ItemId, int>, lines: seq<Line>): map<ItemId, int>
  {
    if lines == [] then counter
    else
      var n := |lines| - 1;
      IncrBy(IncrAll(counter, lines[..n]), lines[n].item, lines[n].qty)
  }

  /** The check loop of `reserve` passes: every line on its own fits what is truly available. */
  predicate Accepts(stock: map<ItemId, int>, counter: map<ItemId, int>, lines: seq<Line>)
  {
    forall k :: 0 <= k < |lines| ==>
      lines[k].item in stock && Get(stock, lines[k].item) - Get(counter, lines[k].item) >= lines[k].qty
  }

  lemma {:induction false} SoloChecks(s: State, invoice: InvoiceId, lines: seq<Line>, expiresAt: Time, k: nat)
    requires s.procs == [Idle] && Normalized(lines) && DistinctItems(lines) && Accepts(s.stock, s.counter, lines)
    requires k <= |lines|
    ensures Reaches(s, s.(procs := [Reserving(invoice, lines, expiresAt, k)]))
  {
    var u := s.(procs := [Reserving(invoice, lines, expiresAt, k)]);
    if k == 0 {
      ReachesItself(s);
      SoloStep(s, s, BeginReserve(0, invoice, lines, expiresAt), u);
    } else {
      SoloChecks(s, invoice, lines, expiresAt, k - 1);
      SoloStep(s, s.(procs := [Reserving(invoice, lines, expiresAt, k - 1)]), CheckLine(0), u);
    }
  }

  lemma {:induction false} SoloIncrements(s: State, invoice: InvoiceId, lines: seq<Line>, expiresAt: Time, k: nat)
    requires s.procs == [Idle] && Normalized(lines) && DistinctItems(lines) && Accepts(s.stock, s.counter, lines)
    requires k <= |lines|
    ensures Reaches(s, s.(procs := [Holding(invoice, lines, expiresAt, k)], counter := IncrAll(s.counter, lines[..k])))
  {
    var u := s.(procs := [Holding(invoice, lines, expiresAt, k)], counter := IncrAll(s.counter, lines[..k]));
    if k == 0 {
      SoloChecks(s, invoice, lines, expiresAt, |lines|);
      SoloStep(s, s.(procs := [Reserving(invoice, lines, expiresAt, |lines|)]), FlushRows(0), u);
    } else {
      SoloIncrements(s, invoice, lines, expiresAt, k - 1);
      assert lines[..k][..k - 1] == lines[..k - 1];
      SoloStep(s, s.(procs := [Holding(invoice, lines, expiresAt, k - 1)], counter := IncrAll(s.counter, lines[..k - 1])),
               Increment(0), u);
    }
  }

  /** A successful `reserve` with nobody in between. */
  lemma SoloReserve(s: State, invoice: InvoiceId, lines: seq<Line>, expiresAt: Time)
    requires s.procs == [Idle] && Normalized(lines) && DistinctItems(lines) && Accepts(s.stock, s.counter, lines)
    ensures Reaches(s, s.(counter := IncrAll(s.counter, lines), rows := s.rows + NewRows(invoice, lines, expiresAt)))
  {
    SoloIncrements(s, invoice, lines, expiresAt, |lines|);
    assert lines[..|lines|] == lines;
    var t := s.(procs := [Holding(invoice, lines, expiresAt, |lines|)], counter := IncrAll(s.counter, lines));
    SoloStep(s, t, CommitReserve(0), s.(counter := t.counter, rows := s.rows + NewRows(invoice, lines, expiresAt)));
  }
}
