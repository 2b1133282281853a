/**
 Reservation and payment link of one invoice: both requests are sent together, each may be carried
 out early, late or never whatever the agent hears back, and the agent settles the outcome once
 both calls have returned.  Sweeps, payments and other invoices' reservations run in between, and
 one clock, read by all, moves on.
 */
module Saga {
  import opened Outcomes
  import opened Holds
  import opened HoldLedger

  type Link = string

  datatype Status = Dispatching | Dead | Invoiced | AwaitingFields

  /** The session fields the outcome writes; `invoice` carries the link it was given, if any. */
  datatype Agent = Agent(
    status: Status,
    invoice: Option<Option<Link>>,
    paymentLinkUrl: Option<Link>,
    paymentResult: Option<Link>)

  /** What became of the agent's one attempt to cancel the link. */
  datatype Cancel = NotTried | Unreached | NothingStored | Refused | Done

  /** How long the payment service keeps the id of a link for a cancellation. */
  const ID_TTL := 600

  /**
   A link can be paid until `expireBy`.  `at` and `expiresAt` say where the reservation put its rows
   and until when they hold; `captured` is when the customer paid on the link, `paid` is set once the
   invoice has been marked paid.  `at`, `paid`, `captured` and `cancel` are history variables.
   */
  datatype State = State(
    clock: Time,
    db: Db,
    ran: bool, fit: bool, at: nat, expiresAt: Time, paid: bool,
    reserveReply: Option<bool>,
    created: bool, expireBy: Time, stored: bool, storedAt: Time, captured: Option<Time>,
    payReply: Option<bool>,
    cancel: Cancel,
    agent: Agent)

  datatype Action =
    | Tick(seconds: nat)
      // the reservation service runs the request; it read the clock at `reservedAt`
    | ReserveRuns(reservedAt: Time)
      // the call returns: a success reply, or a refusal, an error, a timeout
    | ReserveReturns(success: bool)
      // the payment service: it read the clock at `madeAt`, the provider makes the link, its id is stored
    | LinkCreated(madeAt: Time)
    | LinkStored
    | LinkReturns(success: bool)
      // the customer pays on the link
    | Capture
      // the agent asks to cancel: the request may get lost, and the provider may refuse
    | CancelLink(reaches: bool, accepts: bool)
      // a cancellation the agent has given up on is carried out after all
    | CancelLate(accepts: bool)
    | Resolve
      // the turn dies before its outcome is settled
    | AgentDies
    | Elsewhere(op: Op)

  /** The invoice at hand, and for how many seconds its link and its holds are given out. */
  datatype Order = Order(invoice: InvoiceId, lines: seq<Line>, link: Link, linkTtl: nat, holdTtl: nat)

  /** The link was made, has not expired and has not been paid. */
  predicate Open(s: State)
  {
    s.created && s.clock < s.expireBy && s.captured.None?
  }

  /** ... and has not been cancelled. */
  predicate Payable(s: State)
  {
    Open(s) && !s.cancel.Done?
  }

  /** A link came back and the reservation did not. */
  predicate Orphaned(s: State)
  {
    s.reserveReply == Some(false) && s.payReply == Some(true)
  }

  ghost predicate Enabled(o: Order, s: State, a: Action)
  {
    match a
    case Tick(_) => true
    case ReserveRuns(reservedAt) => !s.ran && reservedAt <= s.clock
    case ReserveReturns(success) => s.agent.status.Dispatching? && s.reserveReply.None? && (success ==> s.ran && s.fit)
    case LinkCreated(madeAt) => !s.created && madeAt <= s.clock
    case LinkStored => s.created && !s.stored
    case LinkReturns(success) => s.agent.status.Dispatching? && s.payReply.None? && (success ==> s.stored)
    case Capture => Payable(s)
    case CancelLink(_, _) => s.agent.status.Dispatching? && Orphaned(s) && s.cancel.NotTried?
    case CancelLate(_) => s.cancel.Unreached?
    case Resolve =>
      s.agent.status.Dispatching? && s.reserveReply.Some? && s.payReply.Some? && (Orphaned(s) ==> !s.cancel.NotTried?)
    case AgentDies => s.agent.status.Dispatching?
      // an invoice id is dispatched once: nobody else reserves for it
    case Elsewhere(op) => (op.Reserve? ==> op.invoice != o.invoice) && (op.Sweep? ==> op.now <= s.clock)
  }

  /** `resolve_invoice_outcome` on the four combinations of replies. */
  function Outcome(link: Link, reserved: bool, paid: bool): Agent
  {
    var result := if paid then Some(link) else None;
    if reserved && paid then Agent(Invoiced, Some(Some(link)), Some(link), result)
    else if reserved then Agent(Invoiced, Some(None), None, result)
    else Agent(AwaitingFields, None, None, result)
  }

  /** `cancel-link` looks the id up and asks the provider, which does not cancel a link that was paid. */
  function CancelOutcome(s: State, reaches: bool, accepts: bool): Cancel
  {
    if !reaches then Unreached
    else if !s.stored || s.clock >= s.storedAt + ID_TTL then NothingStored
    else if accepts && s.captured.None? then Done else Refused
  }

  ghost function Apply(o: Order, s: State, a: Action): State
    requires Enabled(o, s, a)
  {
    match a
    case Tick(seconds) => s.(clock := s.clock + seconds)
    case ReserveRuns(reservedAt) =>
      var fit := Normalized(o.lines) && Fits(s.db, o.lines);
      s.(db := if fit then Reserved(s.db, o.invoice, o.lines, reservedAt + o.holdTtl) else s.db, ran := true, fit := fit,
         at := |s.db.rows|, expiresAt := reservedAt + o.holdTtl)
    case ReserveReturns(success) => s.(reserveReply := Some(success))
    case LinkCreated(madeAt) => s.(created := true, expireBy := madeAt + o.linkTtl)
    case LinkStored => s.(stored := true, storedAt := s.clock)
    case LinkReturns(success) => s.(payReply := Some(success))
    case Capture => s.(captured := Some(s.clock))
    case CancelLink(reaches, accepts) => s.(cancel := CancelOutcome(s, reaches, accepts))
    case CancelLate(accepts) => s.(cancel := CancelOutcome(s, true, accepts))
    case Resolve => s.(agent := Outcome(o.link, s.reserveReply.value, s.payReply.value))
    case AgentDies => s.(agent := s.agent.(status := Dead))
    case Elsewhere(op) => s.(db := Do(s.db, op), paid := s.paid || op == Pay(o.invoice))
  }

  ghost predicate Executes(o: Order, s: State, run: seq<Action>, t: State)
    decreases |run|
  {
    if run == [] then s == t else Enabled(o, s, run[0]) && Executes(o, Apply(o, s, run[0]), run[1..], t)
  }

  /** The invoice has no rows yet: its id is new. */
  ghost predicate Initial(o: Order, s: State)
  {
    && Valid(s.db) && NoRows(s.db.rows, o.invoice)
    && !s.ran && !s.fit && !s.paid && s.reserveReply.None? && s.payReply.None?
    && !s.created && !s.stored && s.captured.None? && s.cancel.NotTried? && s.agent.status.Dispatching?
  }

  ghost predicate NoRows(rows: seq<Row>, invoice: InvoiceId)
  {
    forall r :: 0 <= r < |rows| ==> rows[r].invoice != invoice
  }

  /** The rows of the invoice are its lines, one each, in a block at `at`. */
  ghost predicate HoldsExactly(o: Order, rows: seq<Row>, at: nat, expiresAt: Time)
  {
    && at + |o.lines| <= |rows|
    && (forall r :: 0 <= r < |rows| && rows[r].invoice == o.invoice ==> at <= r < at + |o.lines|)
    && forall r {:trigger rows[r]} :: at <= r < at + |o.lines| ==>
         rows[r] == RowOf(o.invoice, o.lines[r - at], expiresAt).(status := rows[r].status)
  }

  ghost predicate Unpaid(rows: seq<Row>, invoice: InvoiceId)
  {
    forall r :: 0 <= r < |rows| && rows[r].invoice == invoice ==> rows[r].status == Held || rows[r].status == Released
  }

  ghost predicate AllReleased(rows: seq<Row>, invoice: InvoiceId)
  {
    forall r :: 0 <= r < |rows| && rows[r].invoice == invoice ==> rows[r].status == Released
  }

  ghost predicate DbOk(o: Order, s: State)
  {
    && Valid(s.db)
    && (s.fit ==> s.ran && HoldsExactly(o, s.db.rows, s.at, s.expiresAt))
    && (!s.fit ==> NoRows(s.db.rows, o.invoice))
    && (!s.paid ==> Unpaid(s.db.rows, o.invoice))
  }

  predicate Settled(s: State)
  {
    s.agent.status.Invoiced? || s.agent.status.AwaitingFields?
  }

  ghost predicate RepliesOk(o: Order, s: State)
  {
    && (s.reserveReply == Some(true) ==> s.fit)
    && (s.payReply == Some(true) ==> s.stored)
    && (s.created ==> s.expireBy <= s.clock + o.linkTtl)
    && (s.stored ==> s.created && s.storedAt <= s.clock && s.expireBy <= s.storedAt + o.linkTtl)
    && (s.captured.Some? ==> s.created && s.captured.value < s.expireBy && s.captured.value <= s.clock)
    && (!s.cancel.NotTried? ==> Orphaned(s))
    && (s.cancel.NothingStored? ==> s.clock >= s.storedAt + ID_TTL)
    && (Settled(s) ==>
          && s.reserveReply.Some? && s.payReply.Some? && (Orphaned(s) ==> !s.cancel.NotTried?)
          && s.agent == Outcome(o.link, s.reserveReply.value, s.payReply.value))
  }

  ghost predicate Inv(o: Order, s: State)
  {
    DbOk(o, s) && RepliesOk(o, s)
  }

  lemma MarkKeepsBlock(o: Order, rows: seq<Row>, ids: set<nat>, st: Holds.Status, at: nat, expiresAt: Time)
    ensures HoldsExactly(o, rows, at, expiresAt) ==> HoldsExactly(o, Mark(rows, ids, st), at, expiresAt)
    ensures NoRows(rows, o.invoice) ==> NoRows(Mark(rows, ids, st), o.invoice)
  {
    var marked := Mark(rows, ids, st);
    if HoldsExactly(o, rows, at, expiresAt) {
      forall r | at <= r < at + |o.lines|
        ensures marked[r] == RowOf(o.invoice, o.lines[r - at], expiresAt).(status := marked[r].status)
      {
        assert rows[r] == RowOf(o.invoice, o.lines[r - at], expiresAt).(status := rows[r].status);
      }
    }
  }

  lemma AppendKeepsBlock(o: Order, rows: seq<Row>, invoice: InvoiceId, lines: seq<Line>, e: Time, at: nat, expiresAt: Time)
    requires invoice != o.invoice
    ensures HoldsExactly(o, rows, at, expiresAt) ==> HoldsExactly(o, rows + NewRows(invoice, lines, e), at, expiresAt)
    ensures NoRows(rows, o.invoice) ==> NoRows(rows + NewRows(invoice, lines, e), o.invoice)
    ensures Unpaid(rows, o.invoice) ==> Unpaid(rows + NewRows(invoice, lines, e), o.invoice)
  {
  }

  lemma MarkKeepsUnpaid(rows: seq<Row>, ids: set<nat>, st: Holds.Status, invoice: InvoiceId)
    requires Unpaid(rows, invoice)
    requires st == Released || forall r :: 0 <= r < |rows| && r in ids ==> rows[r].invoice != invoice
    ensures Unpaid(Mark(rows, ids, st), invoice)
  {
  }

  lemma ElsewhereKeepsInv(o: Order, s: State, op: Op)
    requires Inv(o, s) && Enabled(o, s, Elsewhere(op))
    ensures Inv(o, Apply(o, s, Elsewhere(op)))
  {
    match op {
      case Reserve(invoice, lines, e) =>
        ReserveConserves(s.db, invoice, lines, e);
        AppendKeepsBlock(o, s.db.rows, invoice, lines, e, s.at, s.expiresAt);
      case Sweep(now) =>
        SweepConserves(s.db, now);
        MarkKeepsBlock(o, s.db.rows, ExpiredIds(s.db.rows, now), Released, s.at, s.expiresAt);
        if !s.paid {
          MarkKeepsUnpaid(s.db.rows, ExpiredIds(s.db.rows, now), Released, o.invoice);
        }
      case Pay(invoice) =>
        PayConserves(s.db, invoice);
        MarkKeepsBlock(o, s.db.rows, HeldIdsOf(s.db.rows, invoice), Paid, s.at, s.expiresAt);
        if !s.paid && invoice != o.invoice {
          MarkKeepsUnpaid(s.db.rows, HeldIdsOf(s.db.rows, invoice), Paid, o.invoice);
        }
    }
  }

  lemma ReserveRunsKeepsInv(o: Order, s: State, reservedAt: Time)
    requires Inv(o, s) && Enabled(o, s, ReserveRuns(reservedAt))
    ensures Inv(o, Apply(o, s, ReserveRuns(reservedAt)))
  {
    ReserveConserves(s.db, o.invoice, o.lines, reservedAt + o.holdTtl);
  }

  lemma StepKeepsInv(o: Order, s: State, a: Action)
    requires Inv(o, s) && Enabled(o, s, a)
    ensures Inv(o, Apply(o, s, a))
  {
    match a {
      case ReserveRuns(reservedAt) => ReserveRunsKeepsInv(o, s, reservedAt);
      case Elsewhere(op) => ElsewhereKeepsInv(o, s, op);
      case _ =>
    }
  }

  lemma {:induction false} RunKeepsInv(o: Order, s: State, run: seq<Action>, t: State)
    requires Inv(o, s) && Executes(o, s, run, t)
    ensures Inv(o, t)
    decreases |run|
  {
    if run != [] {
      StepKeepsInv(o, s, run[0]);
      RunKeepsInv(o, Apply(o, s, run[0]), run[1..], t);
    }
  }

  /** An invoiced order has the hold rows of exactly its lines, for good; without a fitting reservation it has none. */
  lemma InvoicedMeansHeld(o: Order, s: State, run: seq<Action>, t: State)
    requires Initial(o, s) && Executes(o, s, run, t)
    ensures t.agent.status.Invoiced? ==> HoldsExactly(o, t.db.rows, t.at, t.expiresAt)
    ensures t.agent.status.Invoiced? <==> Settled(t) && t.reserveReply == Some(true)
    ensures if t.fit then HoldsExactly(o, t.db.rows, t.at, t.expiresAt) else NoRows(t.db.rows, o.invoice)
  {
    RunKeepsInv(o, s, run, t);
  }

  // ---------- links ----------

  /** What the outcome leaves in the session; `paymentResult` keeps a link the other fields have dropped. */
  lemma OutcomeKeeps(link: Link, reserved: bool, paid: bool)
    ensures var agent := Outcome(link, reserved, paid);
            && (agent.status.Invoiced? <==> reserved)
            && (agent.invoice.Some? <==> reserved)
            && (agent.paymentLinkUrl == Some(link) <==> reserved && paid)
            && (agent.paymentResult == Some(link) <==> paid)
  {
  }

  /**
   Settled without a success reply from the reservation, an open link can still be paid exactly when
   its own reply was lost or the cancellation failed.  Where links live no longer than their stored
   ids, an id that had expired is no such failure: the link has expired with it.
   */
  lemma LinkPayableExactlyWhen(o: Order, s: State, run: seq<Action>, t: State)
    requires Initial(o, s) && Executes(o, s, run, t) && Settled(t) && t.reserveReply == Some(false)
    ensures Payable(t) <==> Open(t) && (t.payReply == Some(false) || t.cancel in {Unreached, NothingStored, Refused})
    ensures o.linkTtl <= ID_TTL ==>
      (Payable(t) <==> Open(t) && (t.payReply == Some(false) || t.cancel in {Unreached, Refused}))
  {
    RunKeepsInv(o, s, run, t);
  }

  /** With a success reply from the reservation an open link is never cancelled. */
  lemma ReservedLinkIsPayable(o: Order, s: State, run: seq<Action>, t: State)
    requires Initial(o, s) && Executes(o, s, run, t) && t.reserveReply == Some(true)
    ensures Payable(t) <==> Open(t)
  {
    RunKeepsInv(o, s, run, t);
  }

  lemma StepFirst(o: Order, s: State, a: Action, rest: seq<Action>, t: State)
    requires Enabled(o, s, a) && Executes(o, Apply(o, s, a), rest, t)
    ensures Executes(o, s, [a] + rest, t)
  {
    assert ([a] + rest)[1..] == rest;
  }

  /** No run from `s` ends with an expired id and a link that can still be paid. */
  ghost predicate IdOutlivesLink(o: Order, s: State)
  {
    forall run: seq<Action>, t: State :: Executes(o, s, run, t) && t.cancel.NothingStored? ==> !Payable(t)
  }

  /** An expired id leaves a link that can be paid exactly when links are given out for longer than ids are kept. */
  lemma IdOutlivesLinkExactlyWhen(o: Order, s: State)
    requires Initial(o, s)
    ensures IdOutlivesLink(o, s) <==> o.linkTtl <= ID_TTL
  {
    if o.linkTtl <= ID_TTL {
      forall run: seq<Action>, t: State | Executes(o, s, run, t) && t.cancel.NothingStored? ensures !Payable(t) {
        RunKeepsInv(o, s, run, t);
      }
    } else {
      var run, t := IdExpiresFirst(o, s);
      assert Executes(o, s, run, t) && t.cancel.NothingStored? && Payable(t);
    }
  }

  lemma IdExpiresFirst(o: Order, s: State) returns (run: seq<Action>, t: State)
    requires Initial(o, s) && o.linkTtl > ID_TTL
    ensures Executes(o, s, run, t) && t.cancel.NothingStored? && Payable(t)
  {
    var a := Apply(o, s, LinkCreated(s.clock));
    var b := Apply(o, a, LinkStored);
    var c := Apply(o, b, LinkReturns(true));
    var d := Apply(o, c, ReserveReturns(false));
    var e := Apply(o, d, Tick(ID_TTL));
    t := Apply(o, e, CancelLink(true, true));
    assert Executes(o, t, [], t);
    StepFirst(o, e, CancelLink(true, true), [], t);
    run := [CancelLink(true, true)] + [];
    StepFirst(o, d, Tick(ID_TTL), run, t);
    run := [Tick(ID_TTL)] + run;
    StepFirst(o, c, ReserveReturns(false), run, t);
    run := [ReserveReturns(false)] + run;
    StepFirst(o, b, LinkReturns(true), run, t);
    run := [LinkReturns(true)] + run;
    StepFirst(o, a, LinkStored, run, t);
    run := [LinkStored] + run;
    StepFirst(o, s, LinkCreated(s.clock), run, t);
    run := [LinkCreated(s.clock)] + run;
  }

  lemma {:induction false} DeadStaysDead(o: Order, t: State, after: seq<Action>, u: State)
    requires t.agent.status.Dead? && Executes(o, t, after, u)
    ensures u.agent.status.Dead? && (u.cancel != t.cancel ==> t.cancel.Unreached?)
    ensures CancelLate(true) !in after ==> (u.cancel.Done? <==> t.cancel.Done?)
    decreases |after|
  {
    if after != [] {
      var v := Apply(o, t, after[0]);
      assert forall a :: a in after[1..] ==> a in after;
      DeadStaysDead(o, v, after[1..], u);
    }
  }

  /**
   Once a turn has died nobody cancels any more: whatever follows, a link it had not cancelled can be
   paid for as long as it is open, even one the provider makes afterwards, unless a request to cancel
   was under way and is carried out late.
   */
  lemma DeadTurnCancelsNothing(o: Order, s: State, before: seq<Action>, t: State, after: seq<Action>, u: State)
    requires Initial(o, s) && Executes(o, s, before, t) && t.agent.status.Dead? && Executes(o, t, after, u)
    ensures !t.cancel.Unreached? || CancelLate(true) !in after ==> (Payable(u) <==> Open(u) && !t.cancel.Done?)
    ensures t.cancel.NotTried? ==> (Payable(u) <==> Open(u))
  {
    DeadStaysDead(o, t, after, u);
  }

  /** From any start, a lost payment reply and a failed reservation leave an open link nobody cancels. */
  lemma LiveLinkWithoutHold(o: Order, s: State) returns (run: seq<Action>, t: State)
    requires Initial(o, s)
    ensures Executes(o, s, run, t) && Settled(t) && t.cancel.NotTried? && NoRows(t.db.rows, o.invoice)
    ensures o.linkTtl > 0 ==> Payable(t)
  {
    var a := Apply(o, s, LinkCreated(s.clock));
    var b := Apply(o, a, LinkReturns(false));
    var c := Apply(o, b, ReserveReturns(false));
    t := Apply(o, c, Resolve);
    run := [];
    StepFirst(o, c, Resolve, run, t);
    run := [Resolve] + run;
    StepFirst(o, b, ReserveReturns(false), run, t);
    run := [ReserveReturns(false)] + run;
    StepFirst(o, a, LinkReturns(false), run, t);
    run := [LinkReturns(false)] + run;
    StepFirst(o, s, LinkCreated(s.clock), run, t);
    run := [LinkCreated(s.clock)] + run;
  }

  // ---------- payments and the life of a hold ----------

  /** Once made, a link keeps its expiry; once taken, a hold does. */
  lemma {:induction false} ExpiriesStay(o: Order, t: State, more: seq<Action>, u: State)
    requires Executes(o, t, more, u)
    ensures t.created ==> u.created && u.expireBy == t.expireBy
    ensures t.ran ==> u.ran && u.expiresAt == t.expiresAt && u.fit == t.fit
    ensures t.clock <= u.clock
    decreases |more|
  {
    if more != [] {
      ExpiriesStay(o, Apply(o, t, more[0]), more[1..], u);
    }
  }

  /** Whatever follows, the customer pays before the holds of the invoice expire. */
  ghost predicate PaymentsBeatExpiry(o: Order, t: State)
  {
    forall more: seq<Action>, u: State :: Executes(o, t, more, u) && u.captured.Some? ==> u.captured.value < u.expiresAt
  }

  /**
   With link and hold in place, no payment can come after the holds have expired exactly when the
   link expires no later than they do.
   */
  lemma PaymentsBeatExpiryExactlyWhen(o: Order, s: State, run: seq<Action>, t: State)
    requires Initial(o, s) && Executes(o, s, run, t) && t.fit && Payable(t)
    ensures PaymentsBeatExpiry(o, t) <==> t.expireBy <= t.expiresAt
  {
    RunKeepsInv(o, s, run, t);
    if t.expireBy <= t.expiresAt {
      forall more: seq<Action>, u: State | Executes(o, t, more, u) && u.captured.Some?
        ensures u.captured.value < u.expiresAt
      {
        RunKeepsInv(o, t, more, u);
        ExpiriesStay(o, t, more, u);
      }
    } else {
      var wait := if t.clock < t.expiresAt then t.expiresAt - t.clock else 0;
      var a := Apply(o, t, Tick(wait));
      var u := Apply(o, a, Capture);
      assert Executes(o, u, [], u);
      StepFirst(o, a, Capture, [], u);
      StepFirst(o, t, Tick(wait), [Capture] + [], u);
      assert u.captured.Some? && !(u.captured.value < u.expiresAt);
    }
  }

  /** A link can be paid for `linkTtl` seconds from the reading of the clock it was made with, and once only. */
  lemma OpenExactlyWhile(o: Order, t: State, madeAt: Time, after: seq<Action>, u: State)
    requires Enabled(o, t, LinkCreated(madeAt)) && Executes(o, Apply(o, t, LinkCreated(madeAt)), after, u)
    ensures Open(u) <==> u.clock < madeAt + o.linkTtl && u.captured.None?
  {
    ExpiriesStay(o, Apply(o, t, LinkCreated(madeAt)), after, u);
  }

  lemma {:induction false} DoneStays(o: Order, t: State, after: seq<Action>, u: State)
    requires Executes(o, t, after, u) && t.cancel.Done?
    ensures u.cancel.Done? && u.captured == t.captured
    decreases |after|
  {
    if after != [] {
      DoneStays(o, Apply(o, t, after[0]), after[1..], u);
    }
  }

  /** A cancellation that gets through while the id is kept and nobody has paid ends the link for good. */
  lemma CancelledForGood(o: Order, s: State, run: seq<Action>, t: State, after: seq<Action>, u: State)
    requires Initial(o, s) && Executes(o, s, run, t) && Enabled(o, t, CancelLink(true, true))
    requires t.clock < t.storedAt + 600 && t.captured.None?
    requires Executes(o, Apply(o, t, CancelLink(true, true)), after, u)
    ensures !Payable(u) && u.captured.None?
  {
    RunKeepsInv(o, s, run, t);
    DoneStays(o, Apply(o, t, CancelLink(true, true)), after, u);
  }

  /** No row of the invoice is released before its time. */
  ghost predicate NotEarly(o: Order, s: State)
  {
    forall r :: 0 <= r < |s.db.rows| && s.db.rows[r].invoice == o.invoice && s.db.rows[r].status == Released ==>
      s.db.rows[r].expiresAt <= s.clock
  }

  lemma StepIsNotEarly(o: Order, s: State, a: Action)
    requires NotEarly(o, s) && Enabled(o, s, a)
    ensures NotEarly(o, Apply(o, s, a))
  {
    match a {
      case ReserveRuns(_) =>
      case Elsewhere(op) => match op {
        case Reserve(_, _, _) =>
        case Sweep(_) =>
        case Pay(_) =>
      }
      case _ =>
    }
  }

  lemma {:induction false} RunIsNotEarly(o: Order, s: State, run: seq<Action>, t: State)
    requires NotEarly(o, s) && Executes(o, s, run, t)
    ensures NotEarly(o, t)
    decreases |run|
  {
    if run != [] {
      StepIsNotEarly(o, s, run[0]);
      RunIsNotEarly(o, Apply(o, s, run[0]), run[1..], t);
    }
  }

  lemma RowExpiresWithHold(o: Order, s: State, r: nat)
    requires Inv(o, s) && NotEarly(o, s) && r < |s.db.rows| && s.db.rows[r].invoice == o.invoice
    ensures s.db.rows[r].expiresAt == s.expiresAt
    ensures s.db.rows[r].status == Released ==> s.expiresAt <= s.clock
  {
    assert s.db.rows[r] == RowOf(o.invoice, o.lines[r - s.at], s.expiresAt).(status := s.db.rows[r].status);
  }

  lemma RunKeepsBoth(o: Order, s: State, run: seq<Action>, t: State)
    requires Inv(o, s) && NotEarly(o, s) && Executes(o, s, run, t)
    ensures Inv(o, t) && NotEarly(o, t)
  {
    RunKeepsInv(o, s, run, t);
    RunIsNotEarly(o, s, run, t);
  }

  lemma ReservedUntil(o: Order, t: State, reservedAt: Time)
    requires Inv(o, t) && NotEarly(o, t) && Enabled(o, t, ReserveRuns(reservedAt))
    ensures var v := Apply(o, t, ReserveRuns(reservedAt));
            v.ran && v.expiresAt == reservedAt + o.holdTtl && Inv(o, v) && NotEarly(o, v)
  {
    StepKeepsInv(o, t, ReserveRuns(reservedAt));
    StepIsNotEarly(o, t, ReserveRuns(reservedAt));
  }

  /** A reservation that fits holds its rows for `holdTtl` seconds: until then none of them is released. */
  lemma HoldLasts(o: Order, s: State, before: seq<Action>, t: State, reservedAt: Time, after: seq<Action>, u: State, r: nat)
    requires Initial(o, s) && Executes(o, s, before, t) && Enabled(o, t, ReserveRuns(reservedAt))
    requires Executes(o, Apply(o, t, ReserveRuns(reservedAt)), after, u)
    requires r < |u.db.rows| && u.db.rows[r].invoice == o.invoice
    ensures u.db.rows[r].expiresAt == reservedAt + o.holdTtl
    ensures u.clock < reservedAt + o.holdTtl ==> u.db.rows[r].status != Released
  {
    RunKeepsBoth(o, s, before, t);
    ReservedUntil(o, t, reservedAt);
    var v := Apply(o, t, ReserveRuns(reservedAt));
    RunKeepsBoth(o, v, after, u);
    ExpiriesStay(o, v, after, u);
    RowExpiresWithHold(o, u, r);
  }

  /** When the service read the clock for the link, and for the holds. */
  function MadeAt(o: Order, s: State): Time
  {
    s.expireBy - o.linkTtl
  }

  function ReservedAt(o: Order, s: State): Time
  {
    s.expiresAt - o.holdTtl
  }

  /** A hold taken no earlier than its link was made, for at least as long, covers every payment on the link. */
  lemma HoldCoversPayment(o: Order, s: State, run: seq<Action>, t: State)
    requires Initial(o, s) && Executes(o, s, run, t) && t.captured.Some?
    requires MadeAt(o, t) <= ReservedAt(o, t) && o.linkTtl <= o.holdTtl
    ensures t.captured.value < t.expiresAt
  {
    RunKeepsInv(o, s, run, t);
  }

  // ---------- holds whose reply was lost ----------

  lemma {:induction false} ChosenMono(rows: seq<Row>, some: set<nat>, more: set<nat>, i: ItemId)
    requires some <= more
    ensures ChosenTotal(rows, some, i) <= ChosenTotal(rows, more, i)
  {
    if rows != [] {
      ChosenMono(rows[..|rows| - 1], some, more, i);
    }
  }

  lemma BlockExpires(o: Order, s: State, now: Time, r: nat)
    requires Inv(o, s) && s.fit && now >= s.expiresAt && r < |s.db.rows| && s.db.rows[r].invoice == o.invoice
    ensures s.db.rows[r].status == Held ==> r in ExpiredIds(s.db.rows, now)
    ensures !s.paid ==> s.db.rows[r].status == Held || s.db.rows[r].status == Released
  {
    assert s.db.rows[r] == RowOf(o.invoice, o.lines[r - s.at], s.expiresAt).(status := s.db.rows[r].status);
  }

  lemma HeldIsExpired(o: Order, s: State, now: Time, i: ItemId)
    requires Inv(o, s) && s.fit && now >= s.expiresAt
    ensures ChosenTotal(s.db.rows, HeldIdsOf(s.db.rows, o.invoice), i) <= ChosenTotal(s.db.rows, ExpiredIds(s.db.rows, now), i)
  {
    var expired, held := ExpiredIds(s.db.rows, now), HeldIdsOf(s.db.rows, o.invoice);
    forall r | r in held ensures r in expired {
      BlockExpires(o, s, now, r);
    }
    ChosenMono(s.db.rows, held, expired, i);
  }

  /**
   Whatever became of the replies: the first sweep past the expiry leaves nothing of the invoice on
   hold, releases every row unless the invoice was paid, and puts at least its held stock back.
   */
  lemma LostHoldComesBack(o: Order, s: State, run: seq<Action>, t: State, now: Time)
    requires Initial(o, s) && Executes(o, s, run, t) && t.fit && now >= t.expiresAt
    ensures HeldIdsOf(Swept(t.db, now).rows, o.invoice) == {}
    ensures !t.paid ==> AllReleased(Swept(t.db, now).rows, o.invoice)
    ensures forall i :: i in t.db.stock ==>
      Swept(t.db, now).stock[i] >= t.db.stock[i] + ChosenTotal(t.db.rows, HeldIdsOf(t.db.rows, o.invoice), i)
  {
    RunKeepsInv(o, s, run, t);
    forall r: nat | r < |t.db.rows| && t.db.rows[r].invoice == o.invoice
      ensures t.db.rows[r].status == Held ==> r in ExpiredIds(t.db.rows, now)
      ensures !t.paid ==> t.db.rows[r].status == Held || t.db.rows[r].status == Released
    {
      BlockExpires(o, t, now, r);
    }
    forall i | i in t.db.stock
      ensures ChosenTotal(t.db.rows, HeldIdsOf(t.db.rows, o.invoice), i) <= ChosenTotal(t.db.rows, ExpiredIds(t.db.rows, now), i)
    {
      HeldIsExpired(o, t, now, i);
    }
  }
}
