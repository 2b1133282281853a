/**
 From the dispatch of an invoice to its settled payment: the agent's saga and the webhook consumer on
 one database.  Each step of one machine is a step of the world outside for the other, so what is
 proved of either still holds, and together they say what becomes of a captured payment.
 */
module EndToEnd {
  import opened Outcomes
  import opened Holds
  import opened HoldLedger
  import opened Webhook
  import S = Saga
  import W = WebhookConsumer

  /**
   Both machines hold the same tables, and the saga's clock is the one all read.  History variables:
   `lateSweep`, a sweep has run at or after the expiry of the invoice's holds; `early` and `late`, the
   offsets completed for the first time before the reservation, or after such a sweep; `doneAt`, when
   each offset was completed for the first time.
   */
  datatype World = World(saga: S.State, consumer: W.State, lateSweep: bool, early: set<nat>, late: set<nat>,
                         doneAt: map<nat, Time>)

  datatype Action =
    | OfSaga(move: S.Action)
    | OfConsumer(step: W.Action)
      // other reservations, sweeps and payment marks
    | OfOthers(op: Op)

  /** The payment the consumer is about to settle. */
  function AtHand(c: W.State): Payload
    requires c.phase.AuditWritten? && c.phase.offset < |c.log| && c.log[c.phase.offset].Good?
  {
    c.log[c.phase.offset].payload
  }

  ghost predicate Enabled(o: S.Order, w: World, a: Action)
  {
    match a
    case OfSaga(b) => !b.Elsewhere? && S.Enabled(o, w.saga, b)
    case OfConsumer(b) => !b.Elsewhere? && W.Enabled(w.consumer, b)
    case OfOthers(op) => S.Enabled(o, w.saga, S.Elsewhere(op))
  }

  ghost function SagaAct(o: S.Order, w: World, b: S.Action): World
    requires S.Enabled(o, w.saga, b)
  {
    var saga := S.Apply(o, w.saga, b);
    w.(saga := saga,
       consumer := if b.ReserveRuns? && saga.fit
                   then W.Apply(w.consumer, W.Elsewhere(Reserve(o.invoice, o.lines, b.reservedAt + o.holdTtl)))
                   else w.consumer)
  }

  ghost function ConsumerAct(o: S.Order, w: World, b: W.Action): World
    requires W.Enabled(w.consumer, b)
  {
    var consumer := W.Apply(w.consumer, b);
    if !b.HoldsStep? then w.(consumer := consumer)
    else
      var off, invoice := w.consumer.phase.offset, PaidInvoice(AtHand(w.consumer));
      w.(consumer := consumer,
         saga := if invoice.Some? then S.Apply(o, w.saga, S.Elsewhere(Pay(invoice.value))) else w.saga,
         early := if off !in w.consumer.done && !w.saga.fit then w.early + {off} else w.early,
         late := if off !in w.consumer.done && w.saga.fit && w.lateSweep then w.late + {off} else w.late,
         doneAt := if off !in w.consumer.done then w.doneAt[off := w.saga.clock] else w.doneAt)
  }

  ghost function OthersAct(o: S.Order, w: World, op: Op): World
    requires S.Enabled(o, w.saga, S.Elsewhere(op))
  {
    w.(saga := S.Apply(o, w.saga, S.Elsewhere(op)), consumer := W.Apply(w.consumer, W.Elsewhere(op)),
       lateSweep := w.lateSweep || (op.Sweep? && w.saga.fit && op.now >= w.saga.expiresAt))
  }

  ghost function Apply(o: S.Order, w: World, a: Action): World
    requires Enabled(o, w, a)
  {
    match a
    case OfSaga(b) => SagaAct(o, w, b)
    case OfConsumer(b) => ConsumerAct(o, w, b)
    case OfOthers(op) => OthersAct(o, w, op)
  }

  ghost predicate Executes(o: S.Order, w: World, run: seq<Action>, v: World)
    decreases |run|
  {
    if run == [] then w == v else Enabled(o, w, run[0]) && Executes(o, Apply(o, w, run[0]), run[1..], v)
  }

  ghost predicate Initial(o: S.Order, w: World)
  {
    && S.Initial(o, w.saga) && W.Initial(w.consumer) && w.consumer.tables.db == w.saga.db
    && !w.lateSweep && w.early == {} && w.late == {} && w.doneAt == map[]
  }

  // ---------- the invoice's rows ----------

  ghost predicate AllPaid(rows: seq<Row>, invoice: InvoiceId)
  {
    forall r :: 0 <= r < |rows| && rows[r].invoice == invoice ==> rows[r].status == Paid
  }

  ghost predicate NoneReleased(rows: seq<Row>, invoice: InvoiceId)
  {
    forall r :: 0 <= r < |rows| && rows[r].invoice == invoice ==> rows[r].status == Held || rows[r].status == Paid
  }

  /** The message at `off` says that the invoice its notes name has been paid. */
  predicate Pays(c: W.State, off: nat, invoice: InvoiceId)
  {
    && off < |c.log| && c.log[off].Good?
    && var p := c.log[off].payload;
       && (p.event == "payment.captured" || p.event == "payment_link.paid" || p.paymentStatus == "captured" || p.linkStatus == "paid")
       && ExtractNotes(p).invoice.Some? && ExtractNotes(p).invoice.value.uuid == Some(invoice)
  }

  /** Every completed payment of the invoice was early, or late, or has paid all its rows. */
  ghost predicate Judged(o: S.Order, w: World)
  {
    forall off :: off in w.consumer.done && Pays(w.consumer, off, o.invoice) ==>
      off in w.early || off in w.late || (w.saga.fit && AllPaid(w.saga.db.rows, o.invoice))
  }

  /** A sweep past the expiry, and what was completed after it, comes no sooner than the expiry. */
  ghost predicate Timely(w: World)
  {
    && (w.lateSweep ==> w.saga.clock >= w.saga.expiresAt)
    && (forall off :: off in w.consumer.done ==> off in w.doneAt)
    && forall off :: off in w.late ==> off in w.consumer.done && w.saga.ran && w.doneAt[off] >= w.saga.expiresAt
  }

  ghost predicate RowsOk(o: S.Order, w: World)
  {
    && w.consumer.tables.db == w.saga.db
    && (w.lateSweep ==> w.saga.fit)
    && (w.saga.fit && !w.lateSweep ==> NoneReleased(w.saga.db.rows, o.invoice))
  }

  ghost predicate Inv(o: S.Order, w: World)
  {
    S.Inv(o, w.saga) && W.Progress(w.consumer) && RowsOk(o, w) && Judged(o, w) && Timely(w)
  }

  /** Rows that left HELD as PAID stay there, whatever is reserved, swept or paid. */
  lemma OpKeepsPaid(db: Db, op: Op, invoice: InvoiceId)
    requires op.Reserve? ==> op.invoice != invoice
    ensures AllPaid(db.rows, invoice) ==> AllPaid(Do(db, op).rows, invoice)
  {
  }

  lemma EarlySweepSparesInvoice(o: S.Order, s: S.State, now: Time)
    requires S.DbOk(o, s) && s.fit && now < s.expiresAt
    ensures forall r :: r in ExpiredIds(s.db.rows, now) ==> s.db.rows[r].invoice != o.invoice
  {
    forall r | 0 <= r < |s.db.rows| && s.db.rows[r].invoice == o.invoice ensures s.db.rows[r].expiresAt == s.expiresAt {
      assert s.db.rows[r] == RowOf(o.invoice, o.lines[r - s.at], s.expiresAt).(status := s.db.rows[r].status);
    }
  }

  lemma MarkReleasesNothing(rows: seq<Row>, ids: set<nat>, to: Holds.Status, invoice: InvoiceId)
    requires NoneReleased(rows, invoice)
    requires to == Paid || forall r :: r in ids && r < |rows| ==> rows[r].invoice != invoice
    ensures NoneReleased(Mark(rows, ids, to), invoice)
  {
  }

  lemma OpReleasesOnlyLate(o: S.Order, s: S.State, op: Op)
    requires S.DbOk(o, s) && s.fit && NoneReleased(s.db.rows, o.invoice)
    requires (op.Reserve? ==> op.invoice != o.invoice) && (op.Sweep? ==> op.now < s.expiresAt)
    ensures NoneReleased(Do(s.db, op).rows, o.invoice)
  {
    match op {
      case Reserve(_, _, _) =>
      case Sweep(now) =>
        EarlySweepSparesInvoice(o, s, now);
        MarkReleasesNothing(s.db.rows, ExpiredIds(s.db.rows, now), Released, o.invoice);
      case Pay(invoice) => MarkReleasesNothing(s.db.rows, HeldIdsOf(s.db.rows, invoice), Paid, o.invoice);
    }
  }

  lemma PayPaysAll(db: Db, invoice: InvoiceId)
    requires NoneReleased(db.rows, invoice)
    ensures AllPaid(Do(db, Pay(invoice)).rows, invoice)
  {
  }

  lemma OthersKeepInv(o: S.Order, w: World, op: Op)
    requires Inv(o, w) && Enabled(o, w, OfOthers(op))
    ensures Inv(o, OthersAct(o, w, op))
  {
    S.StepKeepsInv(o, w.saga, S.Elsewhere(op));
    W.StepKeepsProgress(w.consumer, W.Elsewhere(op));
    OpKeepsPaid(w.saga.db, op, o.invoice);
    if w.saga.fit && !OthersAct(o, w, op).lateSweep {
      OpReleasesOnlyLate(o, w.saga, op);
    }
  }

  lemma ReservedRows(o: S.Order, s: S.State, expiresAt: Time)
    requires S.DbOk(o, s) && !s.ran && Fits(s.db, o.lines)
    ensures NoneReleased(Reserved(s.db, o.invoice, o.lines, expiresAt).rows, o.invoice)
  {
  }

  /** What running the reservation does to both machines. */
  ghost predicate Reserves(o: S.Order, w: World, v: World, expiresAt: Time)
  {
    && v.consumer.log == w.consumer.log && v.consumer.done == w.consumer.done && v.doneAt == w.doneAt
    && v.lateSweep == w.lateSweep && v.early == w.early && v.late == w.late
    && v.saga.clock == w.saga.clock && v.saga.ran && v.saga.expiresAt == expiresAt
    && v.saga.fit == (Normalized(o.lines) && Fits(w.saga.db, o.lines))
    && v.saga.db == v.consumer.tables.db == (if v.saga.fit then Reserved(w.saga.db, o.invoice, o.lines, expiresAt) else w.saga.db)
  }

  lemma ReservationFacts(o: S.Order, w: World, reservedAt: Time)
    requires w.consumer.tables.db == w.saga.db && Enabled(o, w, OfSaga(S.ReserveRuns(reservedAt)))
    ensures Reserves(o, w, SagaAct(o, w, S.ReserveRuns(reservedAt)), reservedAt + o.holdTtl)
  {
  }

  lemma ReservationKeepsRest(o: S.Order, w: World, v: World, expiresAt: Time)
    requires RowsOk(o, w) && Judged(o, w) && Timely(w) && S.DbOk(o, w.saga) && !w.saga.ran && Reserves(o, w, v, expiresAt)
    ensures RowsOk(o, v) && Judged(o, v) && Timely(v)
  {
    if v.saga.fit {
      ReservedRows(o, w.saga, expiresAt);
    }
  }

  lemma ReservationKeepsInv(o: S.Order, w: World, reservedAt: Time)
    requires Inv(o, w) && Enabled(o, w, OfSaga(S.ReserveRuns(reservedAt)))
    ensures Inv(o, SagaAct(o, w, S.ReserveRuns(reservedAt)))
  {
    S.StepKeepsInv(o, w.saga, S.ReserveRuns(reservedAt));
    W.StepKeepsProgress(w.consumer, W.Elsewhere(Reserve(o.invoice, o.lines, reservedAt + o.holdTtl)));
    ReservationFacts(o, w, reservedAt);
    ReservationKeepsRest(o, w, SagaAct(o, w, S.ReserveRuns(reservedAt)), reservedAt + o.holdTtl);
  }

  /** No other step of the saga touches the tables or the holds' expiry. */
  lemma QuietSaga(o: S.Order, s: S.State, b: S.Action)
    requires S.Enabled(o, s, b) && !b.ReserveRuns? && !b.Elsewhere?
    ensures var t := S.Apply(o, s, b);
            && t.db == s.db && t.fit == s.fit && t.ran == s.ran && t.expiresAt == s.expiresAt && s.clock <= t.clock
  {
    match b
    case Tick(_) =>
    case Resolve =>
    case _ =>
  }

  lemma SagaKeepsInv(o: S.Order, w: World, b: S.Action)
    requires Inv(o, w) && Enabled(o, w, OfSaga(b))
    ensures Inv(o, SagaAct(o, w, b))
  {
    if b.ReserveRuns? {
      ReservationKeepsInv(o, w, b.reservedAt);
    } else {
      S.StepKeepsInv(o, w.saga, b);
      QuietSaga(o, w.saga, b);
    }
  }

  ghost function PaidDb(db: Db, invoice: Option<InvoiceId>): Db
  {
    if invoice.Some? then Do(db, Pay(invoice.value)) else db
  }

  /** What settling the payment at offset `at` does to both machines. */
  ghost predicate Settles(o: S.Order, w: World, v: World, at: nat, invoice: Option<InvoiceId>)
  {
    && v.consumer.log == w.consumer.log && v.consumer.done == w.consumer.done + [at]
    && v.saga.db == v.consumer.tables.db == PaidDb(w.saga.db, invoice)
    && v.saga.fit == w.saga.fit && v.lateSweep == w.lateSweep && w.early <= v.early && w.late <= v.late
    && (at in w.consumer.done || (w.saga.fit && !w.lateSweep) || at in v.early || at in v.late)
    && (Pays(w.consumer, at, o.invoice) ==> invoice == Some(o.invoice))
  }

  lemma SettleFacts(o: S.Order, w: World)
    requires w.consumer.tables.db == w.saga.db && Enabled(o, w, OfConsumer(W.HoldsStep))
    ensures Settles(o, w, ConsumerAct(o, w, W.HoldsStep), w.consumer.phase.offset, PaidInvoice(AtHand(w.consumer)))
  {
    ConsumerSettles(w.consumer);
    if PaidInvoice(AtHand(w.consumer)).Some? {
      SagaSees(o, w.saga, PaidInvoice(AtHand(w.consumer)));
    }
  }

  lemma ConsumerSettles(c: W.State)
    requires W.Enabled(c, W.HoldsStep)
    ensures var d := W.Apply(c, W.HoldsStep);
            && d.log == c.log && d.done == c.done + [c.phase.offset]
            && d.tables.db == PaidDb(c.tables.db, PaidInvoice(AtHand(c)))
  {
  }

  lemma SagaSees(o: S.Order, s: S.State, invoice: Option<InvoiceId>)
    requires invoice.Some?
    ensures S.Enabled(o, s, S.Elsewhere(Pay(invoice.value)))
    ensures var t := S.Apply(o, s, S.Elsewhere(Pay(invoice.value)));
            && t.db == PaidDb(s.db, invoice)
            && t.fit == s.fit && t.ran == s.ran && t.clock == s.clock && t.expiresAt == s.expiresAt
  {
  }

  lemma PaymentReleasesNothing(o: S.Order, s: S.State, invoice: Option<InvoiceId>)
    requires S.DbOk(o, s) && s.fit && NoneReleased(s.db.rows, o.invoice)
    ensures NoneReleased(PaidDb(s.db, invoice).rows, o.invoice)
  {
    if invoice.Some? {
      OpReleasesOnlyLate(o, s, Pay(invoice.value));
    }
  }

  lemma PaymentKeepsPaid(db: Db, invoice: Option<InvoiceId>, mine: InvoiceId)
    ensures AllPaid(db.rows, mine) ==> AllPaid(PaidDb(db, invoice).rows, mine)
    ensures invoice == Some(mine) && NoneReleased(db.rows, mine) ==> AllPaid(PaidDb(db, invoice).rows, mine)
  {
    if invoice.Some? {
      OpKeepsPaid(db, Pay(invoice.value), mine);
      if invoice.value == mine && NoneReleased(db.rows, mine) {
        PayPaysAll(db, mine);
      }
    }
  }

  lemma SettleKeepsRows(o: S.Order, w: World, v: World, at: nat, invoice: Option<InvoiceId>)
    requires RowsOk(o, w) && S.DbOk(o, w.saga) && Settles(o, w, v, at, invoice)
    ensures RowsOk(o, v)
  {
    if w.saga.fit && !w.lateSweep {
      PaymentReleasesNothing(o, w.saga, invoice);
    }
  }

  lemma SettleKeepsJudged(o: S.Order, w: World, v: World, at: nat, invoice: Option<InvoiceId>)
    requires RowsOk(o, w) && Judged(o, w) && Settles(o, w, v, at, invoice)
    ensures Judged(o, v)
  {
    PaymentKeepsPaid(w.saga.db, invoice, o.invoice);
    forall off | off in v.consumer.done && Pays(v.consumer, off, o.invoice)
      ensures off in v.early || off in v.late || (v.saga.fit && AllPaid(v.saga.db.rows, o.invoice))
    {
      assert Pays(w.consumer, off, o.invoice);
    }
  }

  lemma QuietKeepsJudged(o: S.Order, w: World, b: W.Action)
    requires Inv(o, w) && Enabled(o, w, OfConsumer(b)) && !b.HoldsStep?
    ensures Judged(o, ConsumerAct(o, w, b)) && RowsOk(o, ConsumerAct(o, w, b))
  {
    var v := ConsumerAct(o, w, b);
    forall off | off in v.consumer.done && Pays(v.consumer, off, o.invoice)
      ensures off in v.early || off in v.late || (v.saga.fit && AllPaid(v.saga.db.rows, o.invoice))
    {
      W.CompletedIsGood(w.consumer.log, w.consumer.audited, w.consumer.done, off);
      assert Pays(w.consumer, off, o.invoice);
    }
  }

  /** What completing offset `at` does to the histories. */
  ghost predicate Dates(w: World, v: World, at: nat)
  {
    && v.saga.clock == w.saga.clock && v.saga.expiresAt == w.saga.expiresAt && v.saga.ran == w.saga.ran
    && v.lateSweep == w.lateSweep && v.consumer.done == w.consumer.done + [at]
    && v.doneAt == (if at !in w.consumer.done then w.doneAt[at := w.saga.clock] else w.doneAt)
    && (v.late == w.late || (w.lateSweep && at !in w.consumer.done && v.late == w.late + {at}))
  }

  lemma SettleDates(o: S.Order, w: World)
    requires Enabled(o, w, OfConsumer(W.HoldsStep))
    ensures Dates(w, ConsumerAct(o, w, W.HoldsStep), w.consumer.phase.offset)
  {
    ConsumerSettles(w.consumer);
    if PaidInvoice(AtHand(w.consumer)).Some? {
      SagaSees(o, w.saga, PaidInvoice(AtHand(w.consumer)));
    }
  }

  lemma DatesKeepTimely(w: World, v: World, at: nat)
    requires Timely(w) && Dates(w, v, at) && (w.lateSweep ==> w.saga.ran)
    ensures Timely(v)
  {
  }

  lemma QuietKeepsTimely(o: S.Order, w: World, b: W.Action)
    requires Timely(w) && Enabled(o, w, OfConsumer(b)) && !b.HoldsStep?
    ensures Timely(ConsumerAct(o, w, b))
  {
    assert ConsumerAct(o, w, b).consumer.done == w.consumer.done;
  }

  lemma ConsumerKeepsInv(o: S.Order, w: World, b: W.Action)
    requires Inv(o, w) && Enabled(o, w, OfConsumer(b))
    ensures Inv(o, ConsumerAct(o, w, b))
  {
    W.StepKeepsProgress(w.consumer, b);
    if b.HoldsStep? {
      var v, at, invoice := ConsumerAct(o, w, b), w.consumer.phase.offset, PaidInvoice(AtHand(w.consumer));
      SettleFacts(o, w);
      SettleKeepsRows(o, w, v, at, invoice);
      SettleKeepsJudged(o, w, v, at, invoice);
      SettleDates(o, w);
      DatesKeepTimely(w, v, at);
      if invoice.Some? {
        S.StepKeepsInv(o, w.saga, S.Elsewhere(Pay(invoice.value)));
      }
    } else {
      QuietKeepsJudged(o, w, b);
      QuietKeepsTimely(o, w, b);
    }
  }

  lemma {:induction false} RunKeepsInv(o: S.Order, w: World, run: seq<Action>, v: World)
    requires Inv(o, w) && Executes(o, w, run, v)
    ensures Inv(o, v)
    decreases |run|
  {
    if run != [] {
      match run[0] {
        case OfSaga(b) => SagaKeepsInv(o, w, b);
        case OfConsumer(b) => ConsumerKeepsInv(o, w, b);
        case OfOthers(op) => OthersKeepInv(o, w, op);
      }
      RunKeepsInv(o, Apply(o, w, run[0]), run[1..], v);
    }
  }

  /** What is early or late, and when, is decided the first time an offset is completed. */
  lemma {:induction false} JudgedOnce(o: S.Order, w: World, run: seq<Action>, v: World, off: nat)
    requires Executes(o, w, run, v) && off in w.consumer.done
    ensures off in v.consumer.done && (off in v.early <==> off in w.early) && (off in v.late <==> off in w.late)
    decreases |run|
  {
    if run != [] {
      JudgedOnce(o, Apply(o, w, run[0]), run[1..], v, off);
    }
  }

  lemma {:induction false} PaysStays(o: S.Order, w: World, run: seq<Action>, v: World, off: nat)
    requires Executes(o, w, run, v) && Pays(w.consumer, off, o.invoice)
    ensures Pays(v.consumer, off, o.invoice)
    decreases |run|
  {
    if run != [] {
      PaysStays(o, Apply(o, w, run[0]), run[1..], v, off);
    }
  }

  /**
   Once the committed offset has passed a captured payment of the invoice that was first processed
   after its reservation and before a sweep past its expiry, the rows of the invoice are exactly its
   lines, all PAID, whatever follows.
   */
  lemma CapturedPaymentIsFinal(o: S.Order, w: World, run: seq<Action>, v: World, off: nat, more: seq<Action>, u: World)
    requires Initial(o, w) && Executes(o, w, run, v) && Executes(o, v, more, u)
    requires off < v.consumer.committed && Pays(v.consumer, off, o.invoice) && off !in v.early && off !in v.late
    ensures S.HoldsExactly(o, u.saga.db.rows, u.saga.at, u.saga.expiresAt) && AllPaid(u.saga.db.rows, o.invoice)
  {
    RunKeepsInv(o, w, run, v);
    RunKeepsInv(o, v, more, u);
    assert off in v.consumer.done;
    JudgedOnce(o, v, more, u, off);
    PaysStays(o, v, more, u, off);
  }

  /** An offset is late only if it was first completed when the holds had expired. */
  lemma LateOnlyWhenSlow(o: S.Order, w: World, run: seq<Action>, v: World, off: nat)
    requires Initial(o, w) && Executes(o, w, run, v) && off in v.late
    ensures off in v.doneAt && v.doneAt[off] >= v.saga.expiresAt
  {
    RunKeepsInv(o, w, run, v);
  }

  /**
   A payment captured on the link and first processed, after the reservation, within as many seconds
   as the holds outlast the link is final: the rows of the invoice are exactly its lines, all PAID,
   whatever follows.
   */
  lemma PromptPaymentIsFinal(o: S.Order, w: World, run: seq<Action>, v: World, off: nat, more: seq<Action>, u: World)
    requires Initial(o, w) && Executes(o, w, run, v) && Executes(o, v, more, u)
    requires off < v.consumer.committed && Pays(v.consumer, off, o.invoice) && off !in v.early
    requires v.saga.captured.Some? && off in v.doneAt
    requires v.doneAt[off] - v.saga.captured.value <= v.saga.expiresAt - v.saga.expireBy
    ensures S.HoldsExactly(o, u.saga.db.rows, u.saga.at, u.saga.expiresAt) && AllPaid(u.saga.db.rows, o.invoice)
  {
    RunKeepsInv(o, w, run, v);
    if off in v.late {
      LateOnlyWhenSlow(o, w, run, v, off);
      assert false;
    }
    CapturedPaymentIsFinal(o, w, run, v, off, more, u);
  }
}
