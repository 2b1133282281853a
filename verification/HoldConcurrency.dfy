/**
 The conditional-decrement reservation service under concurrency, one SQL statement per step.

 Reservations, expiry sweeps and payment marks run in any number of processes at once.  An UPDATE
 keeps the rows it has changed locked until its transaction ends, other processes see only
 committed rows, and a process may fail or crash between any two statements, which rolls it back.
 All processes read one clock that never runs backwards.
 */
module HoldConcurrency {
  import opened Sums
  import opened Holds
  import L = HoldLedger

  datatype Proc =
    | Idle
      // lines[..next] tried; `taken` are the decrements made, `short` says one of them failed
    | Reserving(invoice: InvoiceId, lines: seq<Line>, expiresAt: Time, next: nat, taken: seq<Line>, short: bool)
      // SELECT ... FOR UPDATE: of the first `known` rows those in `todo` matched when it began,
      // `seen` is dealt with, `ids` is locked
    | Selecting(now: Time, known: nat, todo: set<nat>, seen: set<nat>, ids: set<nat>)
      // the loop over the selected rows: status updates and stock updates done so far
    | Sweeping(now: Time, known: nat, ids: set<nat>, released: set<nat>, restocked: set<nat>)
      // UPDATE ... SET status = PAID: `todo` was HELD when the statement began, `seen` is dealt with
    | Marking(invoice: InvoiceId, known: nat, todo: set<nat>, seen: set<nat>, mine: set<nat>)

  /** `returned` is a history variable: how often the stock of each hold row was put back. */
  datatype State = State(
    stock: map<ItemId, int>,
    active: set<ItemId>,
    rows: seq<Row>,
    procs: seq<Proc>,
    clock: Time,
    returned: seq<nat>)

  datatype Action =
    | Tick(seconds: nat)
    | BeginReserve(p: nat, invoice: InvoiceId, lines: seq<Line>, expiresAt: Time)
    | TakeLine(p: nat)
    | MissLine(p: nat)
    | CommitReserve(p: nat)
      // the sweep reads the clock, and selects at some later time
    | BeginSweep(p: nat, now: Time)
    | LockExpired(p: nat, row: nat)
    | PassExpired(p: nat, row: nat)
    | StartLoop(p: nat)
    | ReleaseRow(p: nat, row: nat)
    | SkipRow(p: nat, row: nat)
    | RestockItem(p: nat, row: nat)
    | CommitSweep(p: nat)
    | BeginMark(p: nat, invoice: InvoiceId)
    | MarkRow(p: nat, row: nat)
    | PassRow(p: nat, row: nat)
    | CommitMark(p: nat)
    | Rollback(p: nat)

  ghost function ItemLocks(rows: seq<Row>, proc: Proc): set<ItemId>
  {
    match proc
    case Reserving(_, _, _, _, taken, _) => set k | 0 <= k < |taken| :: taken[k].item
    case Sweeping(_, _, _, _, restocked) => RowItems(rows, restocked)
    case _ => {}
  }

  ghost function RowLocks(proc: Proc): set<nat>
  {
    match proc
    case Selecting(_, _, _, _, ids) => ids
    case Sweeping(_, _, ids, _, _) => ids
    case Marking(_, _, _, _, mine) => mine
    case _ => {}
  }

  ghost predicate ItemFree(s: State, p: nat, i: ItemId)
  {
    forall q :: 0 <= q < |s.procs| && q != p ==> i !in ItemLocks(s.rows, s.procs[q])
  }

  ghost predicate RowFree(s: State, p: nat, r: nat)
  {
    forall q :: 0 <= q < |s.procs| && q != p ==> r !in RowLocks(s.procs[q])
  }

  /** What a reservation sees of an item it may already have decremented itself. */
  ghost function Seen(s: State, proc: Proc, i: ItemId): int
    requires proc.Reserving?
  {
    Get(s.stock, i) - LineTotal(proc.taken, i)
  }

  ghost predicate Matches(s: State, proc: Proc, line: Line)
    requires proc.Reserving?
  {
    line.item in s.stock && line.item in s.active && Seen(s, proc, line.item) >= line.qty
  }

  ghost predicate Enabled(s: State, a: Action)
  {
    if a.Tick? then true else
      && a.p < |s.procs|
      && var proc := s.procs[a.p];
         match a
         case BeginReserve(_, _, lines, _) => proc.Idle? && Normalized(lines)
         case TakeLine(p) =>
           && proc.Reserving? && proc.next < |proc.lines|
           && Matches(s, proc, proc.lines[proc.next]) && ItemFree(s, p, proc.lines[proc.next].item)
         case MissLine(_) =>
           && proc.Reserving? && proc.next < |proc.lines|
           && !Matches(s, proc, proc.lines[proc.next])
         case CommitReserve(_) => proc.Reserving? && proc.next == |proc.lines| && !proc.short
         case BeginSweep(_, now) => proc.Idle? && now <= s.clock
         case LockExpired(p, r) =>
           proc.Selecting? && r in proc.todo - proc.seen && r < |s.rows| && RowFree(s, p, r) && s.rows[r].status == Held
         case PassExpired(p, r) =>
           proc.Selecting? && r in proc.todo - proc.seen && r < |s.rows| && RowFree(s, p, r) && s.rows[r].status != Held
         case StartLoop(_) => proc.Selecting? && proc.seen == proc.todo
         case ReleaseRow(_, r) =>
           proc.Sweeping? && r in proc.ids - proc.released && r < |s.rows| && s.rows[r].status == Held
         case SkipRow(_, r) =>
           proc.Sweeping? && r in proc.ids - proc.released && r < |s.rows| && s.rows[r].status != Held
         case RestockItem(p, r) =>
           proc.Sweeping? && r in proc.released - proc.restocked && r < |s.rows| && ItemFree(s, p, s.rows[r].item)
         case CommitSweep(_) => proc.Sweeping? && proc.restocked == proc.ids
         case BeginMark(_, _) => proc.Idle?
         case MarkRow(p, r) =>
           proc.Marking? && r in proc.todo - proc.seen && r < |s.rows| && RowFree(s, p, r) && s.rows[r].status == Held
         case PassRow(p, r) =>
           proc.Marking? && r in proc.todo - proc.seen && r < |s.rows| && RowFree(s, p, r) && s.rows[r].status != Held
         case CommitMark(_) => proc.Marking? && proc.seen == proc.todo
         case Rollback(_) => true
         case Tick(_) => true
  }

  function SetProc(s: State, p: nat, proc: Proc): State
    requires p < |s.procs|
  {
    s.(procs := s.procs[p := proc])
  }

  ghost function Taken(stock: map<ItemId, int>, taken: seq<Line>): map<ItemId, int>
  {
    map i | i in stock :: stock[i] - LineTotal(taken, i)
  }

  ghost function PutBack(s: State, ids: set<nat>): map<ItemId, int>
  {
    map i | i in s.stock :: s.stock[i] + ChosenTotal(s.rows, ids, i)
  }

  function CountReturns(returned: seq<nat>, ids: set<nat>): (r: seq<nat>)
    ensures |r| == |returned|
    ensures forall k :: 0 <= k < |r| ==> r[k] == returned[k] + if k in ids then 1 else 0
  {
    seq(|returned|, k requires 0 <= k < |returned| => returned[k] + if k in ids then 1 else 0)
  }

  function Zeros(n: nat): (z: seq<nat>)
    ensures |z| == n && forall k :: 0 <= k < n ==> z[k] == 0
  {
    seq(n, _ => 0)
  }

  ghost function Apply(s: State, a: Action): State
    requires Enabled(s, a)
  {
    if a.Tick? then s.(clock := s.clock + a.seconds) else
      var p, proc := a.p, s.procs[a.p];
      match a
      case BeginReserve(_, invoice, lines, expiresAt) =>
        SetProc(s, p, Reserving(invoice, lines, expiresAt, 0, [], false))
      case TakeLine(_) =>
        SetProc(s, p, proc.(next := proc.next + 1, taken := proc.taken + [proc.lines[proc.next]]))
      case MissLine(_) => SetProc(s, p, proc.(next := proc.next + 1, short := true))
      case CommitReserve(_) =>
        SetProc(s, p, Idle).(stock := Taken(s.stock, proc.taken),
                             rows := s.rows + NewRows(proc.invoice, proc.lines, proc.expiresAt),
                             returned := s.returned + Zeros(|proc.lines|))
      case BeginSweep(_, now) => SetProc(s, p, Selecting(now, |s.rows|, L.ExpiredIds(s.rows, now), {}, {}))
      case LockExpired(_, r) => SetProc(s, p, Selecting(proc.now, proc.known, proc.todo, proc.seen + {r}, proc.ids + {r}))
      case PassExpired(_, r) => SetProc(s, p, Selecting(proc.now, proc.known, proc.todo, proc.seen + {r}, proc.ids))
      case StartLoop(_) => SetProc(s, p, Sweeping(proc.now, proc.known, proc.ids, {}, {}))
      case ReleaseRow(_, r) => SetProc(s, p, Sweeping(proc.now, proc.known, proc.ids, proc.released + {r}, proc.restocked))
      case SkipRow(_, r) => SetProc(s, p, Sweeping(proc.now, proc.known, proc.ids - {r}, proc.released, proc.restocked))
      case RestockItem(_, r) => SetProc(s, p, Sweeping(proc.now, proc.known, proc.ids, proc.released, proc.restocked + {r}))
      case CommitSweep(_) =>
        SetProc(s, p, Idle).(stock := PutBack(s, proc.restocked), rows := Mark(s.rows, proc.released, Released),
                             returned := CountReturns(s.returned, proc.restocked))
      case BeginMark(_, invoice) => SetProc(s, p, Marking(invoice, |s.rows|, L.HeldIdsOf(s.rows, invoice), {}, {}))
      case MarkRow(_, r) => SetProc(s, p, Marking(proc.invoice, proc.known, proc.todo, proc.seen + {r}, proc.mine + {r}))
      case PassRow(_, r) => SetProc(s, p, Marking(proc.invoice, proc.known, proc.todo, proc.seen + {r}, proc.mine))
      case CommitMark(_) => SetProc(s, p, Idle).(rows := Mark(s.rows, proc.mine, Paid))
      case Rollback(_) => SetProc(s, p, Idle)
      case Tick(_) => s
  }

  ghost predicate Executes(s: State, run: seq<Action>, t: State)
    decreases |run|
  {
    if run == [] then s == t else Enabled(s, run[0]) && Executes(Apply(s, run[0]), run[1..], t)
  }

  // ---------- the invariant ----------

  ghost predicate HeldRows(s: State, ids: set<nat>)
  {
    forall r :: r in ids ==> r < |s.rows| && s.rows[r].status == Held
  }

  ghost predicate ExpiredRows(s: State, ids: set<nat>, now: Time)
  {
    now <= s.clock && forall r :: r in ids && r < |s.rows| ==> s.rows[r].expiresAt <= now
  }

  /** What a reservation has taken is really there, on items nobody else touches. */
  ghost predicate TakenOk(s: State, taken: seq<Line>)
  {
    && (forall k :: 0 <= k < |taken| ==> taken[k].item in s.stock && taken[k].item in s.active)
    && forall i :: i in s.stock ==> LineTotal(taken, i) <= s.stock[i]
  }

  ghost predicate MarkingOk(s: State, proc: Proc)
    requires proc.Marking?
  {
    && HeldRows(s, proc.mine) && proc.mine <= proc.seen <= proc.todo && proc.known <= |s.rows|
    && (forall r :: r in proc.todo ==> r < |s.rows| && s.rows[r].invoice == proc.invoice)
    && (forall r :: r in proc.seen - proc.mine && r < |s.rows| ==> s.rows[r].status != Held)
    && (forall r :: 0 <= r < proc.known && s.rows[r].invoice == proc.invoice && r !in proc.todo ==> s.rows[r].status != Held)
  }

  /** Of the first `known` rows, an expired one that is not in `ids` is no longer held. */
  ghost predicate NothingElseExpired(s: State, known: nat, ids: set<nat>, now: Time)
  {
    known <= |s.rows| && forall r :: 0 <= r < known && s.rows[r].expiresAt <= now && r !in ids ==> s.rows[r].status != Held
  }

  ghost predicate SelectingOk(s: State, proc: Proc)
    requires proc.Selecting?
  {
    && HeldRows(s, proc.ids) && ExpiredRows(s, proc.todo, proc.now) && proc.ids <= proc.seen <= proc.todo
    && (forall r :: r in proc.todo ==> r < |s.rows|)
    && (forall r :: r in proc.seen - proc.ids && r < |s.rows| ==> s.rows[r].status != Held)
    && NothingElseExpired(s, proc.known, proc.todo, proc.now)
  }

  ghost predicate ProcOk(s: State, proc: Proc)
  {
    match proc
    case Idle => true
    case Reserving(_, lines, _, next, taken, short) =>
      next <= |lines| && (!short ==> taken == lines[..next]) && TakenOk(s, taken)
    case Selecting(_, _, _, _, _) => SelectingOk(s, proc)
    case Sweeping(now, known, ids, released, restocked) =>
      && HeldRows(s, ids) && ExpiredRows(s, ids, now) && restocked <= released <= ids
      && NothingElseExpired(s, known, ids, now)
    case Marking(_, _, _, _, _) => MarkingOk(s, proc)
  }

  ghost predicate Exclusive(s: State)
  {
    forall p, q :: 0 <= p < q < |s.procs| ==>
      && ItemLocks(s.rows, s.procs[p]) !! ItemLocks(s.rows, s.procs[q])
      && RowLocks(s.procs[p]) !! RowLocks(s.procs[q])
  }

  ghost predicate TablesOk(s: State)
  {
    && (forall i :: i in s.stock ==> s.stock[i] >= 0)
    && |s.returned| == |s.rows|
    && forall r :: 0 <= r < |s.rows| ==>
         && s.rows[r].item in s.stock
         && s.returned[r] == (if s.rows[r].status == Released then 1 else 0)
         && (s.rows[r].status == Released ==> s.rows[r].expiresAt <= s.clock)
         && s.rows[r].status != Committed
  }

  ghost predicate Inv(s: State)
  {
    TablesOk(s) && Exclusive(s) && forall p :: 0 <= p < |s.procs| ==> ProcOk(s, s.procs[p])
  }

  /** What is committed, as the tables the operations work on one at a time. */
  ghost function Tables(s: State): L.Db
  {
    L.Db(s.stock, s.active, s.rows)
  }

  ghost function Accounted(s: State, i: ItemId): int
  {
    Get(s.stock, i) + InStatus(s.rows, i, Held) + InStatus(s.rows, i, Paid)
  }

  /** A freshly started service: nothing in flight, no hold released yet. */
  ghost predicate Initial(s: State)
  {
    && (forall i :: i in s.stock ==> s.stock[i] >= 0)
    && (forall p :: 0 <= p < |s.procs| ==> s.procs[p].Idle?)
    && s.returned == Zeros(|s.rows|)
    && forall r :: 0 <= r < |s.rows| ==> s.rows[r].item in s.stock && s.rows[r].status in {Held, Paid}
  }

  lemma InitialInv(s: State)
    requires Initial(s)
    ensures Inv(s)
  {
  }

  /** What any step may do to rows: append, and move unlocked-by-others rows out of HELD for good. */
  ghost predicate RowsAdvance(s: State, t: State)
  {
    && |s.rows| <= |t.rows|
    && forall r :: 0 <= r < |s.rows| ==>
         && t.rows[r] == s.rows[r].(status := t.rows[r].status)
         && (s.rows[r].status != Held ==> t.rows[r] == s.rows[r])
  }

  ghost predicate Frame(s: State, t: State, p: nat)
    requires p < |s.procs|
  {
    && |t.procs| == |s.procs| && s.clock <= t.clock && t.stock.Keys == s.stock.Keys && t.active == s.active
    && RowsAdvance(s, t)
    && (forall q :: 0 <= q < |s.procs| && q != p ==> t.procs[q] == s.procs[q])
    && (forall r :: 0 <= r < |s.rows| && r !in RowLocks(s.procs[p]) ==> t.rows[r] == s.rows[r])
    && (forall i :: i in s.stock && i !in ItemLocks(s.rows, s.procs[p]) ==> t.stock[i] == s.stock[i])
  }

  lemma LocksApart(s: State, p: nat, q: nat)
    requires Exclusive(s) && p < |s.procs| && q < |s.procs| && p != q
    ensures ItemLocks(s.rows, s.procs[p]) !! ItemLocks(s.rows, s.procs[q]) && RowLocks(s.procs[p]) !! RowLocks(s.procs[q])
  {
    assert if p < q then ItemLocks(s.rows, s.procs[p]) !! ItemLocks(s.rows, s.procs[q]) && RowLocks(s.procs[p]) !! RowLocks(s.procs[q])
           else ItemLocks(s.rows, s.procs[q]) !! ItemLocks(s.rows, s.procs[p]) && RowLocks(s.procs[q]) !! RowLocks(s.procs[p]);
  }

  lemma TakenStaysOk(s: State, t: State, p: nat, q: nat)
    requires Inv(s) && p < |s.procs| && q < |s.procs| && p != q && Frame(s, t, p) && s.procs[q].Reserving?
    requires forall i :: i in t.stock ==> t.stock[i] >= 0
    ensures TakenOk(t, s.procs[q].taken)
  {
    LocksApart(s, p, q);
    assert ProcOk(s, s.procs[q]);
    var taken := s.procs[q].taken;
    forall i | i in t.stock ensures LineTotal(taken, i) <= t.stock[i] {
      if i in ItemLocks(s.rows, s.procs[q]) {
        assert t.stock[i] == s.stock[i];
      } else {
        forall k | 0 <= k < |taken| ensures taken[k].item != i { assert taken[k].item in ItemLocks(s.rows, s.procs[q]); }
        LineTotalAbsent(taken, i);
      }
    }
  }

  lemma OthersKeepOk(s: State, t: State, p: nat, q: nat)
    requires Inv(s) && p < |s.procs| && q < |s.procs| && p != q && Frame(s, t, p)
    requires forall i :: i in t.stock ==> t.stock[i] >= 0
    ensures ProcOk(t, t.procs[q])
  {
    LocksApart(s, p, q);
    assert ProcOk(s, s.procs[q]);
    if s.procs[q].Reserving? {
      TakenStaysOk(s, t, p, q);
    }
  }

  lemma LocksKept(s: State, t: State, q: nat)
    requires Inv(s) && q < |s.procs| && q < |t.procs| && t.procs[q] == s.procs[q] && RowsAdvance(s, t)
    ensures ItemLocks(t.rows, t.procs[q]) == ItemLocks(s.rows, s.procs[q])
  {
    assert ProcOk(s, s.procs[q]);
  }

  lemma ExclusiveAfter(s: State, t: State, p: nat)
    requires Inv(s) && p < |s.procs| && Frame(s, t, p)
    requires forall i :: i in ItemLocks(t.rows, t.procs[p]) ==> i in ItemLocks(s.rows, s.procs[p]) || ItemFree(s, p, i)
    requires forall r :: r in RowLocks(t.procs[p]) ==> r in RowLocks(s.procs[p]) || RowFree(s, p, r)
    ensures Exclusive(t)
  {
    forall q | 0 <= q < |s.procs| && q != p
      ensures ItemLocks(t.rows, t.procs[p]) !! ItemLocks(t.rows, t.procs[q])
      ensures RowLocks(t.procs[p]) !! RowLocks(t.procs[q])
      ensures ItemLocks(t.rows, t.procs[q]) == ItemLocks(s.rows, s.procs[q])
    {
      LocksApart(s, p, q);
      LocksKept(s, t, q);
    }
    forall q, r | 0 <= q < r < |s.procs| && q != p && r != p
      ensures ItemLocks(t.rows, t.procs[q]) !! ItemLocks(t.rows, t.procs[r])
      ensures RowLocks(t.procs[q]) !! RowLocks(t.procs[r])
    {
      LocksApart(s, q, r);
      LocksKept(s, t, q);
      LocksKept(s, t, r);
    }
  }

  /** A step of process `p` keeps the invariant if it keeps the tables, its own state and the locks. */
  lemma StepOk(s: State, t: State, p: nat)
    requires Inv(s) && p < |s.procs| && Frame(s, t, p) && TablesOk(t) && ProcOk(t, t.procs[p])
    requires forall i :: i in ItemLocks(t.rows, t.procs[p]) ==> i in ItemLocks(s.rows, s.procs[p]) || ItemFree(s, p, i)
    requires forall r :: r in RowLocks(t.procs[p]) ==> r in RowLocks(s.procs[p]) || RowFree(s, p, r)
    ensures Inv(t)
  {
    ExclusiveAfter(s, t, p);
    forall q | 0 <= q < |s.procs| ensures ProcOk(t, t.procs[q]) {
      if q != p { OthersKeepOk(s, t, p, q); }
    }
  }

  lemma TakenOneMore(s: State, proc: Proc, line: Line)
    requires proc.Reserving? && TakenOk(s, proc.taken) && Matches(s, proc, line)
    ensures TakenOk(s, proc.taken + [line])
  {
    forall i | i in s.stock ensures LineTotal(proc.taken + [line], i) <= s.stock[i] {
      TotalOneMore(proc.taken, line, i);
      assert LineTotal(proc.taken, i) <= s.stock[i];
      if line.item == i {
        assert Seen(s, proc, i) >= line.qty;
      }
    }
    assert forall k :: 0 <= k < |proc.taken| ==> proc.taken[k].item in s.stock && proc.taken[k].item in s.active;
  }

  lemma TotalOneMore(lines: seq<Line>, line: Line, i: ItemId)
    ensures LineTotal(lines + [line], i) == LineTotal(lines, i) + if line.item == i then line.qty else 0
  {
    SumSnoc(lines, line, QtyOf(i));
  }

  lemma TakeLineLocks(s: State, taken: seq<Line>, line: Line, before: Proc, after: Proc)
    requires before.Reserving? && after.Reserving? && before.taken == taken && after.taken == taken + [line]
    ensures ItemLocks(s.rows, after) <= ItemLocks(s.rows, before) + {line.item}
  {
    forall k | 0 <= k < |taken| ensures taken[k].item in ItemLocks(s.rows, before) {}
  }

  lemma TakeLineOk(s: State, p: nat)
    requires Inv(s) && Enabled(s, TakeLine(p))
    ensures Inv(Apply(s, TakeLine(p)))
  {
    var proc := s.procs[p];
    var line := proc.lines[proc.next];
    var after := proc.(next := proc.next + 1, taken := proc.taken + [line]);
    assert ProcOk(s, proc);
    assert proc.lines[..proc.next + 1] == proc.lines[..proc.next] + [line];
    TakenOneMore(s, proc, line);
    TakeLineLocks(s, proc.taken, line, proc, after);
    ProcessMovesOn(s, p, after);
  }

  /** A step that touches neither table. */
  lemma ProcessMovesOn(s: State, p: nat, after: Proc)
    requires Inv(s) && p < |s.procs| && ProcOk(s, after)
    requires forall i :: i in ItemLocks(s.rows, after) ==> i in ItemLocks(s.rows, s.procs[p]) || ItemFree(s, p, i)
    requires forall r :: r in RowLocks(after) ==> r in RowLocks(s.procs[p]) || RowFree(s, p, r)
    ensures Inv(SetProc(s, p, after))
  {
    var t := SetProc(s, p, after);
    assert ProcOk(t, after);
    StepOk(s, t, p);
  }

  lemma SweepStepOk(s: State, a: Action)
    requires Inv(s) && Enabled(s, a)
    requires a.LockExpired? || a.PassExpired? || a.StartLoop? || a.ReleaseRow? || a.SkipRow? || a.RestockItem?
    ensures Inv(Apply(s, a))
  {
    assert ProcOk(s, s.procs[a.p]);
    ProcessMovesOn(s, a.p, Apply(s, a).procs[a.p]);
  }

  lemma MarkStepOk(s: State, a: Action)
    requires Inv(s) && Enabled(s, a) && (a.BeginMark? || a.MarkRow? || a.PassRow?)
    ensures Inv(Apply(s, a))
  {
    assert ProcOk(s, s.procs[a.p]);
    ProcessMovesOn(s, a.p, Apply(s, a).procs[a.p]);
  }

  lemma LockFreeStepOk(s: State, a: Action)
    requires Inv(s) && Enabled(s, a)
    requires a.BeginReserve? || a.MissLine? || a.BeginSweep? || a.Rollback?
    ensures Inv(Apply(s, a))
  {
    assert ProcOk(s, s.procs[a.p]);
    var t := Apply(s, a);
    if a.BeginReserve? {
      forall i: ItemId ensures LineTotal([], i) == 0 {}
    }
    StepOk(s, t, a.p);
  }

  lemma CommitReserveMoves(s: State, p: nat, i: ItemId)
    requires Inv(s) && Enabled(s, CommitReserve(p))
    ensures Accounted(Apply(s, CommitReserve(p)), i) == Accounted(s, i)
    ensures i in s.stock && i !in ItemLocks(s.rows, s.procs[p]) ==> Apply(s, CommitReserve(p)).stock[i] == s.stock[i]
  {
    var proc := s.procs[p];
    assert ProcOk(s, proc);
    assert proc.taken == proc.lines by { assert proc.lines[..proc.next] == proc.lines; }
    NewRowsTotals(s.rows, proc.invoice, proc.lines, proc.expiresAt, i, Held);
    NewRowsTotals(s.rows, proc.invoice, proc.lines, proc.expiresAt, i, Paid);
    if i !in ItemLocks(s.rows, proc) {
      forall k | 0 <= k < |proc.lines| ensures proc.lines[k].item != i { assert proc.taken[k].item in ItemLocks(s.rows, proc); }
      LineTotalAbsent(proc.lines, i);
    }
  }

  lemma CommitReserveTables(s: State, p: nat)
    requires Inv(s) && Enabled(s, CommitReserve(p))
    ensures TablesOk(Apply(s, CommitReserve(p))) && Frame(s, Apply(s, CommitReserve(p)), p)
  {
    var t, proc := Apply(s, CommitReserve(p)), s.procs[p];
    assert ProcOk(s, proc);
    assert proc.taken == proc.lines by { assert proc.lines[..proc.next] == proc.lines; }
    forall i | i in s.stock && i !in ItemLocks(s.rows, proc) ensures t.stock[i] == s.stock[i] {
      CommitReserveMoves(s, p, i);
    }
  }

  lemma CommitReserveOk(s: State, p: nat)
    requires Inv(s) && Enabled(s, CommitReserve(p))
    ensures Inv(Apply(s, CommitReserve(p)))
    ensures forall i: ItemId :: Accounted(Apply(s, CommitReserve(p)), i) == Accounted(s, i)
  {
    CommitReserveTables(s, p);
    StepOk(s, Apply(s, CommitReserve(p)), p);
    forall i: ItemId ensures Accounted(Apply(s, CommitReserve(p)), i) == Accounted(s, i) {
      CommitReserveMoves(s, p, i);
    }
  }

  /** The state after process `p` has committed the release of `ids`. */
  ghost predicate SweepCommitted(s: State, p: nat, ids: set<nat>, t: State)
  {
    && p < |s.procs| && s.procs[p].Sweeping? && HeldRows(s, ids) && ExpiredRows(s, ids, s.clock)
    && ItemLocks(s.rows, s.procs[p]) == RowItems(s.rows, ids) && RowLocks(s.procs[p]) == ids
    && t == SetProc(s, p, Idle).(stock := PutBack(s, ids), rows := Mark(s.rows, ids, Released),
                                 returned := CountReturns(s.returned, ids))
  }

  lemma SweepMoves(s: State, p: nat, ids: set<nat>, t: State, i: ItemId)
    requires Inv(s) && SweepCommitted(s, p, ids, t)
    ensures Accounted(t, i) == Accounted(s, i)
    ensures i in s.stock ==> t.stock[i] >= s.stock[i]
    ensures i in s.stock && i !in ItemLocks(s.rows, s.procs[p]) ==> t.stock[i] == s.stock[i]
  {
    MarkTotals(s.rows, ids, Released, i, Held);
    MarkTotals(s.rows, ids, Released, i, Paid);
    ChosenNonNegative(s.rows, ids, i);
    if i !in RowItems(s.rows, ids) {
      ChosenNothing(s.rows, ids, i);
    }
  }

  lemma SweepTables(s: State, p: nat, ids: set<nat>, t: State)
    requires Inv(s) && SweepCommitted(s, p, ids, t)
    ensures TablesOk(t)
  {
    forall i | i in s.stock ensures t.stock[i] >= s.stock[i] {
      SweepMoves(s, p, ids, t, i);
    }
  }

  lemma SweepFrame(s: State, p: nat, ids: set<nat>, t: State)
    requires Inv(s) && SweepCommitted(s, p, ids, t)
    ensures Frame(s, t, p)
  {
    forall i | i in s.stock && i !in ItemLocks(s.rows, s.procs[p]) ensures t.stock[i] == s.stock[i] {
      SweepMoves(s, p, ids, t, i);
    }
  }

  lemma CommitSweepOk(s: State, p: nat)
    requires Inv(s) && Enabled(s, CommitSweep(p))
    ensures Inv(Apply(s, CommitSweep(p))) && RowsAdvance(s, Apply(s, CommitSweep(p)))
    ensures forall i: ItemId :: Accounted(Apply(s, CommitSweep(p)), i) == Accounted(s, i)
  {
    var ids, t := s.procs[p].ids, Apply(s, CommitSweep(p));
    assert ProcOk(s, s.procs[p]);
    assert s.procs[p].released == ids == s.procs[p].restocked;
    assert SweepCommitted(s, p, ids, t);
    SweepTables(s, p, ids, t);
    SweepFrame(s, p, ids, t);
    StepOk(s, t, p);
    forall i: ItemId ensures Accounted(t, i) == Accounted(s, i) {
      SweepMoves(s, p, ids, t, i);
    }
  }

  lemma CommitMarkOk(s: State, p: nat)
    requires Inv(s) && Enabled(s, CommitMark(p))
    ensures Inv(Apply(s, CommitMark(p)))
    ensures forall i: ItemId :: Accounted(Apply(s, CommitMark(p)), i) == Accounted(s, i)
  {
    var t := Apply(s, CommitMark(p));
    var ids := s.procs[p].mine;
    assert ProcOk(s, s.procs[p]);
    forall i: ItemId ensures Accounted(t, i) == Accounted(s, i) {
      MarkTotals(s.rows, ids, Paid, i, Held);
      MarkTotals(s.rows, ids, Paid, i, Paid);
    }
    StepOk(s, t, p);
  }

  lemma TickOk(s: State, seconds: nat)
    requires Inv(s)
    ensures Inv(Apply(s, Tick(seconds)))
  {
    var t := Apply(s, Tick(seconds));
    forall p | 0 <= p < |t.procs| ensures ProcOk(t, t.procs[p]) {
      assert ProcOk(s, s.procs[p]);
    }
  }

  predicate Commits(a: Action)
  {
    a.CommitReserve? || a.CommitSweep? || a.CommitMark?
  }

  /** Until it commits, a process changes neither table. */
  lemma UncommittedStepOk(s: State, a: Action)
    requires Inv(s) && Enabled(s, a) && !Commits(a)
    ensures Inv(Apply(s, a)) && Apply(s, a).stock == s.stock && Apply(s, a).rows == s.rows
  {
    match a {
      case Tick(seconds) => TickOk(s, seconds);
      case TakeLine(p) => TakeLineOk(s, p);
      case LockExpired(_, _) => SweepStepOk(s, a);
      case PassExpired(_, _) => SweepStepOk(s, a);
      case StartLoop(_) => SweepStepOk(s, a);
      case ReleaseRow(_, _) => SweepStepOk(s, a);
      case SkipRow(_, _) => SweepStepOk(s, a);
      case RestockItem(_, _) => SweepStepOk(s, a);
      case BeginMark(_, _) => MarkStepOk(s, a);
      case MarkRow(_, _) => MarkStepOk(s, a);
      case PassRow(_, _) => MarkStepOk(s, a);
      case _ => LockFreeStepOk(s, a);
    }
  }

  lemma StepKeepsInv(s: State, a: Action)
    requires Inv(s) && Enabled(s, a)
    ensures Inv(Apply(s, a))
    ensures forall i: ItemId :: Accounted(Apply(s, a), i) == Accounted(s, i)
    ensures RowsAdvance(s, Apply(s, a))
  {
    if a.CommitReserve? {
      CommitReserveOk(s, a.p);
    } else if a.CommitSweep? {
      CommitSweepOk(s, a.p);
    } else if a.CommitMark? {
      assert ProcOk(s, s.procs[a.p]);
      CommitMarkOk(s, a.p);
    } else {
      UncommittedStepOk(s, a);
    }
  }

  // ---------- what holds over every run ----------

  lemma {:induction false} RunKeepsInv(s: State, run: seq<Action>, t: State)
    requires Inv(s) && Executes(s, run, t)
    ensures Inv(t) && RowsAdvance(s, t)
    ensures forall i: ItemId :: Accounted(t, i) == Accounted(s, i)
    decreases |run|
  {
    if run != [] {
      StepKeepsInv(s, run[0]);
      RunKeepsInv(Apply(s, run[0]), run[1..], t);
    }
  }

  /** Stock on hand, on hold and sold add up to the same number for ever, and stock is never negative. */
  lemma Conservation(s: State, run: seq<Action>, t: State)
    requires Initial(s) && Executes(s, run, t)
    ensures forall i: ItemId :: Accounted(t, i) == Accounted(s, i) && Get(t.stock, i) >= 0
  {
    InitialInv(s);
    RunKeepsInv(s, run, t);
  }

  /** A hold leaves HELD at most once; its stock comes back once if it was released and never if it was paid. */
  lemma HoldEndsOnce(s: State, before: seq<Action>, t: State, after: seq<Action>, u: State, r: nat)
    requires Initial(s) && Executes(s, before, t) && Executes(t, after, u) && r < |t.rows|
    ensures r < |u.rows| && u.rows[r] == t.rows[r].(status := u.rows[r].status)
    ensures t.rows[r].status != Held ==> u.rows[r].status == t.rows[r].status
    ensures |u.returned| == |u.rows| && u.returned[r] == if u.rows[r].status == Released then 1 else 0
  {
    InitialInv(s);
    RunKeepsInv(s, before, t);
    RunKeepsInv(t, after, u);
  }

  /**
   In every run a hold ends in one of two ways: released by a sweep that found it expired when it
   read the clock, or paid by a mark for its own invoice.
   */
  lemma HoldEndsForCause(s: State, run: seq<Action>, t: State, a: Action, r: nat)
    requires Initial(s) && Executes(s, run, t) && Enabled(t, a)
    requires r < |t.rows| && t.rows[r].status == Held && Apply(t, a).rows[r].status != Held
    ensures || (a.CommitSweep? && Apply(t, a).rows[r] == t.rows[r].(status := Released)
                && t.rows[r].expiresAt <= t.procs[a.p].now <= t.clock)
            || (a.CommitMark? && Apply(t, a).rows[r] == t.rows[r].(status := Paid)
                && t.rows[r].invoice == t.procs[a.p].invoice)
  {
    InitialInv(s);
    RunKeepsInv(s, run, t);
    if !Commits(a) {
      UncommittedStepOk(t, a);
      assert false;
    }
    assert ProcOk(t, t.procs[a.p]);
  }

  /** A reservation that commits finds every item on sale with enough for all its lines together, and takes exactly that. */
  lemma CommitsOnlyWhatFits(s: State, run: seq<Action>, t: State, p: nat)
    requires Initial(s) && Executes(s, run, t) && Enabled(t, CommitReserve(p))
    ensures var proc, u := t.procs[p], Apply(t, CommitReserve(p));
            && L.Fits(Tables(t), proc.lines)
            && Tables(u) == L.Reserved(Tables(t), proc.invoice, proc.lines, proc.expiresAt)
  {
    InitialInv(s);
    RunKeepsInv(s, run, t);
    var proc := t.procs[p];
    assert ProcOk(t, proc);
    assert proc.taken == proc.lines by { assert proc.lines[..proc.next] == proc.lines; }
  }

  /** The status guard inside the sweep's loop never fails: the rows were locked when they were selected. */
  lemma SweepNeverSkips(s: State, run: seq<Action>, t: State, p: nat, r: nat)
    requires Initial(s) && Executes(s, run, t)
    ensures !Enabled(t, SkipRow(p, r))
  {
    InitialInv(s);
    RunKeepsInv(s, run, t);
    if p < |t.procs| {
      assert ProcOk(t, t.procs[p]);
    }
  }

  /**
   A sweep misses nothing: every row that was there when its select began and had expired by the
   time it read off the clock has left HELD when the sweep commits, and stays out of it; unless it
   was PAID by then, it is RELEASED for good and its stock is back exactly once.
   */
  lemma SweepIsComplete(s: State, before: seq<Action>, t: State, p: nat, swept: State,
                        after: seq<Action>, u: State, r: nat)
    requires Initial(s) && Executes(s, before, t) && Enabled(t, CommitSweep(p)) && swept == Apply(t, CommitSweep(p))
    requires Executes(swept, after, u) && r < t.procs[p].known && r < |t.rows| && t.rows[r].expiresAt <= t.procs[p].now
    ensures r < |u.rows| == |u.returned|
    ensures u.rows[r] == t.rows[r].(status := if t.rows[r].status == Paid then Paid else Released)
    ensures u.returned[r] == if t.rows[r].status == Paid then 0 else 1
  {
    InitialInv(s);
    RunKeepsInv(s, before, t);
    SweepCommitReleases(t, p, swept, r);
    StepKeepsInv(t, CommitSweep(p));
    RunKeepsInv(swept, after, u);
  }

  lemma SweepCommitReleases(t: State, p: nat, swept: State, r: nat)
    requires Inv(t) && Enabled(t, CommitSweep(p)) && swept == Apply(t, CommitSweep(p))
    requires r < t.procs[p].known && r < |t.rows| && t.rows[r].expiresAt <= t.procs[p].now
    ensures |swept.rows| == |t.rows|
    ensures swept.rows[r] == t.rows[r].(status := if t.rows[r].status == Paid then Paid else Released)
  {
    assert ProcOk(t, t.procs[p]);
  }

  /** All rows of the invoice were there when process `p`'s select began, and had expired. */
  ghost predicate AllExpired(t: State, p: nat, invoice: InvoiceId)
    requires p < |t.procs| && t.procs[p].Sweeping?
  {
    forall r :: 0 <= r < |t.rows| && t.rows[r].invoice == invoice ==>
      r < t.procs[p].known && t.rows[r].expiresAt <= t.procs[p].now
  }

  /**
   A hold nobody knows of comes back: the first sweep to commit that found all rows of an invoice
   expired leaves none of them HELD, then or ever after, and has put back the stock of each that was
   not PAID, exactly once.
   */
  lemma InvoiceComesBack(s: State, before: seq<Action>, t: State, p: nat, swept: State,
                         after: seq<Action>, u: State, invoice: InvoiceId)
    requires Initial(s) && Executes(s, before, t) && Enabled(t, CommitSweep(p)) && swept == Apply(t, CommitSweep(p))
    requires Executes(swept, after, u) && AllExpired(t, p, invoice)
    ensures |t.rows| <= |u.rows| == |u.returned|
    ensures forall r :: 0 <= r < |t.rows| && t.rows[r].invoice == invoice ==>
              && u.rows[r] == t.rows[r].(status := if t.rows[r].status == Paid then Paid else Released)
              && u.returned[r] == if t.rows[r].status == Paid then 0 else 1
  {
    InitialInv(s);
    RunKeepsInv(s, before, t);
    StepKeepsInv(t, CommitSweep(p));
    RunKeepsInv(swept, after, u);
    forall r | 0 <= r < |t.rows| && t.rows[r].invoice == invoice
      ensures u.rows[r] == t.rows[r].(status := if t.rows[r].status == Paid then Paid else Released)
      ensures u.returned[r] == if t.rows[r].status == Paid then 0 else 1
    {
      SweepIsComplete(s, before, t, p, swept, after, u, r);
    }
  }

  /** Row `r` of the invoice existed when process `p`'s mark began and has not expired yet. */
  ghost predicate DueInTime(t: State, p: nat, r: nat)
  {
    && p < |t.procs| && t.procs[p].Marking? && r < |t.rows| && r < t.procs[p].known
    && t.rows[r].invoice == t.procs[p].invoice && t.clock < t.rows[r].expiresAt
  }

  lemma MarkedInTime(t: State, p: nat, r: nat, u: State)
    requires Inv(t) && DueInTime(t, p, r) && Enabled(t, CommitMark(p)) && u == Apply(t, CommitMark(p))
    ensures |u.rows| == |t.rows| && u.rows[r] == t.rows[r].(status := Paid)
  {
    assert ProcOk(t, t.procs[p]);
    assert t.rows[r].status != Released;
  }

  /**
   An invoice marked paid before its holds expire keeps them: every row of the invoice that existed
   when the mark began and has not expired when it commits is PAID then and ever after, and its
   stock is never put back.
   */
  lemma PaidInTimeStaysPaid(s: State, before: seq<Action>, t: State, p: nat, paid: State,
                            after: seq<Action>, u: State, r: nat)
    requires Initial(s) && Executes(s, before, t) && DueInTime(t, p, r)
    requires Enabled(t, CommitMark(p)) && paid == Apply(t, CommitMark(p)) && Executes(paid, after, u)
    ensures r < |u.rows| && u.rows[r] == t.rows[r].(status := Paid)
    ensures r < |u.returned| && u.returned[r] == 0
  {
    InitialInv(s);
    RunKeepsInv(s, before, t);
    MarkedInTime(t, p, r, paid);
    StepKeepsInv(t, CommitMark(p));
    RunKeepsInv(paid, after, u);
  }

  // ---------- one process nobody interferes with ----------

  lemma StepFirst(s: State, a: Action, rest: seq<Action>, t: State) returns (run: seq<Action>)
    requires Enabled(s, a) && Executes(Apply(s, a), rest, t)
    ensures Executes(s, run, t)
  {
    run := [a] + rest;
    assert run[1..] == rest;
  }

  /** None of the items is locked by anybody else. */
  ghost predicate LinesFree(s: State, p: nat, lines: seq<Line>)
  {
    forall k :: 0 <= k < |lines| ==> ItemFree(s, p, lines[k].item)
  }

  ghost function ReservingAt(s: State, p: nat, invoice: InvoiceId, lines: seq<Line>, expiresAt: Time, k: nat): State
    requires p < |s.procs| && k <= |lines|
  {
    SetProc(s, p, Reserving(invoice, lines, expiresAt, k, lines[..k], false))
  }

  lemma NextLineMatches(s: State, p: nat, invoice: InvoiceId, lines: seq<Line>, expiresAt: Time, k: nat)
    requires p < |s.procs| && k < |lines| && L.Fits(Tables(s), lines) && LinesFree(s, p, lines)
    ensures var at := ReservingAt(s, p, invoice, lines, expiresAt, k);
            Enabled(at, TakeLine(p)) && Apply(at, TakeLine(p)) == ReservingAt(s, p, invoice, lines, expiresAt, k + 1)
  {
    var at, i := ReservingAt(s, p, invoice, lines, expiresAt, k), lines[k].item;
    LineTotalSnoc(lines, k, i);
    assert lines == lines[..k + 1] + lines[k + 1..];
    SumAppend(lines[..k + 1], lines[k + 1..], QtyOf(i));
    LineTotalNonNegative(lines[k + 1..], i);
    assert Matches(at, at.procs[p], lines[k]);
    assert ItemFree(s, p, i);
    assert lines[..k] + [lines[k]] == lines[..k + 1];
  }

  lemma {:induction false} TakesTheRest(s: State, p: nat, invoice: InvoiceId, lines: seq<Line>, expiresAt: Time, k: nat, t: State)
    returns (run: seq<Action>)
    requires p < |s.procs| && k <= |lines| && L.Fits(Tables(s), lines) && LinesFree(s, p, lines)
    requires var at := ReservingAt(s, p, invoice, lines, expiresAt, |lines|);
             Enabled(at, CommitReserve(p)) && t == Apply(at, CommitReserve(p))
    ensures Executes(ReservingAt(s, p, invoice, lines, expiresAt, k), run, t)
    decreases |lines| - k
  {
    if k == |lines| {
      assert Executes(t, [], t);
      run := StepFirst(ReservingAt(s, p, invoice, lines, expiresAt, k), CommitReserve(p), [], t);
    } else {
      NextLineMatches(s, p, invoice, lines, expiresAt, k);
      var rest := TakesTheRest(s, p, invoice, lines, expiresAt, k + 1, t);
      run := StepFirst(ReservingAt(s, p, invoice, lines, expiresAt, k), TakeLine(p), rest, t);
    }
  }

  /** A request that fits can be carried through, whatever the others hold, and then is the reservation of HoldLedger. */
  lemma ReserveAlone(s: State, p: nat, invoice: InvoiceId, lines: seq<Line>, expiresAt: Time)
    returns (run: seq<Action>, t: State)
    requires p < |s.procs| && s.procs[p].Idle? && Normalized(lines) && L.Fits(Tables(s), lines) && LinesFree(s, p, lines)
    ensures Executes(s, run, t) && t.procs == s.procs && Tables(t) == L.Reserved(Tables(s), invoice, lines, expiresAt)
  {
    var at := ReservingAt(s, p, invoice, lines, expiresAt, |lines|);
    assert lines[..|lines|] == lines;
    t := Apply(at, CommitReserve(p));
    var rest := TakesTheRest(s, p, invoice, lines, expiresAt, 0, t);
    assert Apply(s, BeginReserve(p, invoice, lines, expiresAt)) == ReservingAt(s, p, invoice, lines, expiresAt, 0);
    run := StepFirst(s, BeginReserve(p, invoice, lines, expiresAt), rest, t);
    assert t.procs == s.procs;
  }

  ghost predicate RowsFree(s: State, p: nat, ids: set<nat>)
  {
    forall r :: r in ids ==> r < |s.rows| && RowFree(s, p, r) && ItemFree(s, p, s.rows[r].item)
  }

  lemma SetTwice(s: State, p: nat, first: Proc, second: Proc)
    requires p < |s.procs|
    ensures SetProc(SetProc(s, p, first), p, second) == SetProc(s, p, second)
  {
  }

  /** The sweep has locked all of `ids` but those in `left`. */
  ghost function SelectingBut(s: State, p: nat, now: Time, ids: set<nat>, left: set<nat>): State
    requires p < |s.procs|
  {
    SetProc(s, p, Selecting(now, |s.rows|, ids, ids - left, ids - left))
  }

  lemma LockNext(s: State, p: nat, now: Time, ids: set<nat>, left: set<nat>, r: nat)
    requires p < |s.procs| && RowsFree(s, p, ids) && HeldRows(s, ids) && left <= ids && r in left
    ensures var at := SelectingBut(s, p, now, ids, left);
            Enabled(at, LockExpired(p, r)) && Apply(at, LockExpired(p, r)) == SelectingBut(s, p, now, ids, left - {r})
  {
    var proc := Selecting(now, |s.rows|, ids, ids - left, ids - left);
    assert ids - left + {r} == ids - (left - {r});
    assert RowFree(s, p, r);
    SetTwice(s, p, proc, Selecting(now, |s.rows|, ids, ids - (left - {r}), ids - (left - {r})));
  }

  lemma {:induction false} LocksTheRest(s: State, p: nat, now: Time, ids: set<nat>, left: set<nat>, after: seq<Action>, t: State)
    returns (run: seq<Action>)
    requires p < |s.procs| && RowsFree(s, p, ids) && HeldRows(s, ids) && left <= ids
    requires Executes(SelectingBut(s, p, now, ids, {}), after, t)
    ensures Executes(SelectingBut(s, p, now, ids, left), run, t)
    decreases left
  {
    if left == {} {
      run := after;
    } else {
      var r :| r in left;
      LockNext(s, p, now, ids, left, r);
      run := LocksTheRest(s, p, now, ids, left - {r}, after, t);
      run := StepFirst(SelectingBut(s, p, now, ids, left), LockExpired(p, r), run, t);
    }
  }

  /** The loop has still to release the rows in `left`, and to put back the stock of those in `owed`. */
  ghost function SweepingBut(s: State, p: nat, now: Time, ids: set<nat>, left: set<nat>, owed: set<nat>): State
    requires p < |s.procs|
  {
    SetProc(s, p, Sweeping(now, |s.rows|, ids, ids - left, ids - owed))
  }

  lemma ReleaseNext(s: State, p: nat, now: Time, ids: set<nat>, left: set<nat>, r: nat)
    requires p < |s.procs| && HeldRows(s, ids) && left <= ids && r in left
    ensures var at := SweepingBut(s, p, now, ids, left, ids);
            Enabled(at, ReleaseRow(p, r)) && Apply(at, ReleaseRow(p, r)) == SweepingBut(s, p, now, ids, left - {r}, ids)
  {
    assert ids - left + {r} == ids - (left - {r});
    SetTwice(s, p, Sweeping(now, |s.rows|, ids, ids - left, ids - ids),
             Sweeping(now, |s.rows|, ids, ids - (left - {r}), ids - ids));
  }

  lemma {:induction false} ReleasesTheRest(s: State, p: nat, now: Time, ids: set<nat>, left: set<nat>, after: seq<Action>, t: State)
    returns (run: seq<Action>)
    requires p < |s.procs| && HeldRows(s, ids) && left <= ids
    requires Executes(SweepingBut(s, p, now, ids, {}, ids), after, t)
    ensures Executes(SweepingBut(s, p, now, ids, left, ids), run, t)
    decreases left
  {
    if left == {} {
      run := after;
    } else {
      var r :| r in left;
      ReleaseNext(s, p, now, ids, left, r);
      run := ReleasesTheRest(s, p, now, ids, left - {r}, after, t);
      run := StepFirst(SweepingBut(s, p, now, ids, left, ids), ReleaseRow(p, r), run, t);
    }
  }

  lemma RestockNext(s: State, p: nat, now: Time, ids: set<nat>, owed: set<nat>, r: nat)
    requires p < |s.procs| && RowsFree(s, p, ids) && owed <= ids && r in owed
    ensures var at := SweepingBut(s, p, now, ids, {}, owed);
            Enabled(at, RestockItem(p, r)) && Apply(at, RestockItem(p, r)) == SweepingBut(s, p, now, ids, {}, owed - {r})
  {
    assert ids - owed + {r} == ids - (owed - {r});
    assert ItemFree(s, p, s.rows[r].item);
    SetTwice(s, p, Sweeping(now, |s.rows|, ids, ids - {}, ids - owed),
             Sweeping(now, |s.rows|, ids, ids - {}, ids - (owed - {r})));
  }

  lemma {:induction false} RestocksTheRest(s: State, p: nat, now: Time, ids: set<nat>, owed: set<nat>, after: seq<Action>, t: State)
    returns (run: seq<Action>)
    requires p < |s.procs| && RowsFree(s, p, ids) && owed <= ids
    requires Executes(SweepingBut(s, p, now, ids, {}, {}), after, t)
    ensures Executes(SweepingBut(s, p, now, ids, {}, owed), run, t)
    decreases owed
  {
    if owed == {} {
      run := after;
    } else {
      var r :| r in owed;
      RestockNext(s, p, now, ids, owed, r);
      run := RestocksTheRest(s, p, now, ids, owed - {r}, after, t);
      run := StepFirst(SweepingBut(s, p, now, ids, {}, owed), RestockItem(p, r), run, t);
    }
  }

  lemma SweepEdges(s: State, p: nat, now: Time)
    requires p < |s.procs| && s.procs[p].Idle? && now <= s.clock
    ensures var ids := L.ExpiredIds(s.rows, now);
            && Apply(s, BeginSweep(p, now)) == SelectingBut(s, p, now, ids, ids)
            && Enabled(SelectingBut(s, p, now, ids, {}), StartLoop(p))
            && Apply(SelectingBut(s, p, now, ids, {}), StartLoop(p)) == SweepingBut(s, p, now, ids, ids, ids)
  {
    var ids := L.ExpiredIds(s.rows, now);
    assert ids - ids == {} && ids - {} == ids;
    SetTwice(s, p, Selecting(now, |s.rows|, ids, ids, ids), Sweeping(now, |s.rows|, ids, {}, {}));
  }

  lemma SweepLastStep(s: State, p: nat, now: Time) returns (t: State)
    requires p < |s.procs| && s.procs[p].Idle?
    ensures var ids := L.ExpiredIds(s.rows, now);
            Enabled(SweepingBut(s, p, now, ids, {}, {}), CommitSweep(p))
            && t == Apply(SweepingBut(s, p, now, ids, {}, {}), CommitSweep(p))
    ensures t.procs == s.procs && Tables(t) == L.Swept(Tables(s), now)
  {
    var ids := L.ExpiredIds(s.rows, now);
    assert ids - {} == ids;
    t := Apply(SweepingBut(s, p, now, ids, {}, {}), CommitSweep(p));
    assert t.procs == s.procs;
  }

  /** A sweep nobody gets in the way of is the sweep of HoldLedger. */
  lemma SweepAlone(s: State, p: nat, now: Time) returns (run: seq<Action>, t: State)
    requires p < |s.procs| && s.procs[p].Idle? && now <= s.clock && RowsFree(s, p, L.ExpiredIds(s.rows, now))
    ensures Executes(s, run, t) && t.procs == s.procs && Tables(t) == L.Swept(Tables(s), now)
  {
    var ids := L.ExpiredIds(s.rows, now);
    SweepEdges(s, p, now);
    t := SweepLastStep(s, p, now);
    assert Executes(t, [], t);
    run := StepFirst(SweepingBut(s, p, now, ids, {}, {}), CommitSweep(p), [], t);
    run := RestocksTheRest(s, p, now, ids, ids, run, t);
    run := ReleasesTheRest(s, p, now, ids, ids, run, t);
    run := StepFirst(SelectingBut(s, p, now, ids, {}), StartLoop(p), run, t);
    run := LocksTheRest(s, p, now, ids, ids, run, t);
    run := StepFirst(s, BeginSweep(p, now), run, t);
  }

  /** The mark has still to come to the rows in `left`. */
  ghost function MarkingBut(s: State, p: nat, invoice: InvoiceId, ids: set<nat>, left: set<nat>): State
    requires p < |s.procs|
  {
    SetProc(s, p, Marking(invoice, |s.rows|, ids, ids - left, ids - left))
  }

  lemma MarkNext(s: State, p: nat, invoice: InvoiceId, ids: set<nat>, left: set<nat>, r: nat)
    requires p < |s.procs| && RowsFree(s, p, ids) && HeldRows(s, ids) && left <= ids && r in left
    ensures var at := MarkingBut(s, p, invoice, ids, left);
            Enabled(at, MarkRow(p, r)) && Apply(at, MarkRow(p, r)) == MarkingBut(s, p, invoice, ids, left - {r})
  {
    assert ids - left + {r} == ids - (left - {r});
    assert RowFree(s, p, r);
    SetTwice(s, p, Marking(invoice, |s.rows|, ids, ids - left, ids - left),
             Marking(invoice, |s.rows|, ids, ids - (left - {r}), ids - (left - {r})));
  }

  lemma {:induction false} MarksTheRest(s: State, p: nat, invoice: InvoiceId, ids: set<nat>, left: set<nat>, after: seq<Action>, t: State)
    returns (run: seq<Action>)
    requires p < |s.procs| && RowsFree(s, p, ids) && HeldRows(s, ids) && left <= ids
    requires Executes(MarkingBut(s, p, invoice, ids, {}), after, t)
    ensures Executes(MarkingBut(s, p, invoice, ids, left), run, t)
    decreases left
  {
    if left == {} {
      run := after;
    } else {
      var r :| r in left;
      MarkNext(s, p, invoice, ids, left, r);
      run := MarksTheRest(s, p, invoice, ids, left - {r}, after, t);
      run := StepFirst(MarkingBut(s, p, invoice, ids, left), MarkRow(p, r), run, t);
    }
  }

  /** So is a payment mark. */
  lemma MarkAlone(s: State, p: nat, invoice: InvoiceId) returns (run: seq<Action>, t: State)
    requires p < |s.procs| && s.procs[p].Idle? && RowsFree(s, p, L.HeldIdsOf(s.rows, invoice))
    ensures Executes(s, run, t) && t.procs == s.procs && Tables(t) == L.MarkedPaid(Tables(s), invoice)
  {
    var ids := L.HeldIdsOf(s.rows, invoice);
    assert ids - {} == ids && ids - ids == {};
    t := Apply(MarkingBut(s, p, invoice, ids, {}), CommitMark(p));
    assert t.procs == s.procs;
    assert Executes(t, [], t);
    run := StepFirst(MarkingBut(s, p, invoice, ids, {}), CommitMark(p), [], t);
    run := MarksTheRest(s, p, invoice, ids, ids, run, t);
    run := StepFirst(s, BeginMark(p, invoice), run, t);
  }
}
