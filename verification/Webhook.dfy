/** Payment webhooks: what one delivery does to the audit table and to the holds of its invoice. */
module Webhook {
  import opened Outcomes
  import opened Holds
  import opened HoldLedger

  /** An invoice id as the notes carry it, and what `UUID(...)` makes of it. */
  datatype InvoiceRef = InvoiceRef(text: string, uuid: Option<InvoiceId>)

  datatype Notes = Notes(invoice: Option<InvoiceRef>, session: string, merchant: string)

  /** The parts of a webhook body that matter; absent objects read as empty. */
  datatype Payload = Payload(
    event: string,
    paymentNotes: Option<Notes>, linkNotes: Option<Notes>, payloadNotes: Option<Notes>, topNotes: Option<Notes>,
    paymentStatus: string, linkStatus: string,
    paymentId: string, topPaymentId: string, orderId: string, referenceId: string)

  /** Session and merchant of the invoice found in Redis or rebuilt from the order, if any. */
  datatype Lookup = Lookup(session: string, merchant: string)

  datatype AuditRow = AuditRow(
    invoice: string, session: string, merchant: string, success: bool,
    paymentId: Option<string>, orderId: Option<string>)

  datatype Tables = Tables(audits: seq<AuditRow>, db: Db)

  function NonEmpty(s: string): Option<string>
  {
    if s == "" then None else Some(s)
  }

  /** The first of the four places that holds any notes. */
  function ExtractNotes(p: Payload): Notes
  {
    if p.paymentNotes.Some? then p.paymentNotes.value
    else if p.linkNotes.Some? then p.linkNotes.value
    else if p.payloadNotes.Some? then p.payloadNotes.value
    else if p.topNotes.Some? then p.topNotes.value
    else Notes(None, "", "")
  }

  predicate IsPaymentSuccess(p: Payload)
  {
    p.event in {"payment.captured", "payment_link.paid"} || p.paymentStatus == "captured" || p.linkStatus == "paid"
  }

  function PaymentId(p: Payload): Option<string>
  {
    NonEmpty(if p.paymentId != "" then p.paymentId else p.topPaymentId)
  }

  function OrderId(p: Payload): Option<string>
  {
    NonEmpty(if p.orderId != "" then p.orderId else p.referenceId)
  }

  function AuditInvoiceId(p: Payload): string
  {
    var invoice := ExtractNotes(p).invoice;
    if invoice.Some? then invoice.value.text
    else if OrderId(p).Some? then OrderId(p).value
    else if PaymentId(p).Some? then PaymentId(p).value
    else "unknown"
  }

  function AuditRowOf(p: Payload, found: Lookup): AuditRow
  {
    var notes := ExtractNotes(p);
    AuditRow(AuditInvoiceId(p),
             if notes.session != "" then notes.session else found.session,
             if notes.merchant != "" then notes.merchant else found.merchant,
             IsPaymentSuccess(p), PaymentId(p), OrderId(p))
  }

  /** `uq_invoice_audit_invoice_payment`: NULL payment ids never collide. */
  predicate Collides(audits: seq<AuditRow>, row: AuditRow)
  {
    row.paymentId.Some? && exists k :: 0 <= k < |audits| && audits[k].invoice == row.invoice && audits[k].paymentId == row.paymentId
  }

  ghost predicate UniqueAudits(audits: seq<AuditRow>)
  {
    forall j, k :: 0 <= j < k < |audits| && audits[j].paymentId.Some? ==>
      audits[j].invoice != audits[k].invoice || audits[j].paymentId != audits[k].paymentId
  }

  /** The insert, or nothing when the unique index refuses it. */
  function WriteAudit(t: Tables, p: Payload, found: Lookup): Tables
  {
    var row := AuditRowOf(p, found);
    if Collides(t.audits, row) then t else t.(audits := t.audits + [row])
  }

  /** The invoice whose holds a delivery settles. */
  function PaidInvoice(p: Payload): Option<InvoiceId>
  {
    var invoice := ExtractNotes(p).invoice;
    if IsPaymentSuccess(p) && invoice.Some? then invoice.value.uuid else None
  }

  function SettleHolds(t: Tables, p: Payload): Tables
  {
    var invoice := PaidInvoice(p);
    if invoice.Some? then t.(db := MarkedPaid(t.db, invoice.value)) else t
  }

  function Processed(t: Tables, p: Payload, found: Lookup): Tables
  {
    SettleHolds(WriteAudit(t, p, found), p)
  }

  // ---------- what a delivery means ----------

  /** `x` is the first of `texts` that says anything, `""` if none does. */
  ghost predicate FirstGiven(texts: seq<string>, x: string)
  {
    if x == "" then forall k :: 0 <= k < |texts| ==> texts[k] == ""
    else exists k :: 0 <= k < |texts| && texts[k] == x && forall j :: 0 <= j < k ==> texts[j] == ""
  }

  function TextOf(o: Option<string>): string
  {
    if o.Some? then o.value else ""
  }

  /** The row names the first place that gives each of its fields; an invoice id in the notes goes before all others. */
  ghost predicate Describes(row: AuditRow, p: Payload, found: Lookup)
  {
    var notes := ExtractNotes(p);
    && (if notes.invoice.Some? then row.invoice == notes.invoice.value.text
        else FirstGiven([p.orderId, p.referenceId, p.paymentId, p.topPaymentId, "unknown"], row.invoice))
    && FirstGiven([notes.session, found.session], row.session)
    && FirstGiven([notes.merchant, found.merchant], row.merchant)
    && row.paymentId != Some("") && FirstGiven([p.paymentId, p.topPaymentId], TextOf(row.paymentId))
    && row.orderId != Some("") && FirstGiven([p.orderId, p.referenceId], TextOf(row.orderId))
  }

  lemma FirstOfTwo(a: string, b: string)
    ensures FirstGiven([a, b], if a != "" then a else b)
  {
    if a != "" {
      assert [a, b][0] == a;
    } else if b != "" {
      assert [a, b][1] == b;
    }
  }

  lemma FirstOfFive(a: string, b: string, c: string, d: string, e: string)
    requires e != ""
    ensures FirstGiven([a, b, c, d, e], if a != "" then a else if b != "" then b else if c != "" then c else if d != "" then d else e)
  {
    var texts := [a, b, c, d, e];
    assert texts[0] == a && texts[1] == b && texts[2] == c && texts[3] == d && texts[4] == e;
  }

  lemma RowDescribes(p: Payload, found: Lookup)
    ensures Describes(AuditRowOf(p, found), p, found)
  {
    var notes := ExtractNotes(p);
    FirstOfFive(p.orderId, p.referenceId, p.paymentId, p.topPaymentId, "unknown");
    FirstOfTwo(notes.session, found.session);
    FirstOfTwo(notes.merchant, found.merchant);
    FirstOfTwo(p.paymentId, p.topPaymentId);
    FirstOfTwo(p.orderId, p.referenceId);
  }

  /** The notes are the first there are: the payment's, the link's, the payload's, those at the top. */
  lemma NotesAreFirst(p: Payload) returns (k: nat)
    ensures var places := [p.paymentNotes, p.linkNotes, p.payloadNotes, p.topNotes];
            && k <= 4 && (forall j :: 0 <= j < k ==> places[j].None?)
            && (if k < 4 then places[k] == Some(ExtractNotes(p)) else ExtractNotes(p) == Notes(None, "", ""))
  {
    k := if p.paymentNotes.Some? then 0 else if p.linkNotes.Some? then 1 else if p.payloadNotes.Some? then 2
         else if p.topNotes.Some? then 3 else 4;
  }

  class PaymentLogProcessor {
    var audits: seq<AuditRow>
    const reservations: ReservationService

    constructor (reservations: ReservationService)
      ensures this.reservations == reservations && audits == []
    {
      this.reservations, this.audits := reservations, [];
    }

    ghost function View(): Tables
      reads this, reservations
    {
      Tables(audits, reservations.View())
    }

    method WriteInvoiceAudit(row: AuditRow)
      modifies this
      ensures audits == if Collides(old(audits), row) then old(audits) else old(audits) + [row]
      ensures old(UniqueAudits(audits)) ==> UniqueAudits(audits)
    {
      if !Collides(audits, row) {
        audits := audits + [row];
      }
    }

    method ProcessWebhook(p: Payload, found: Lookup)
      modifies this, reservations
      ensures View() == Processed(old(View()), p, found)
      ensures old(UniqueAudits(audits)) ==> UniqueAudits(audits)
      ensures audits != old(audits) ==>
                && |audits| == |old(audits)| + 1 && audits[..|old(audits)|] == old(audits)
                && Describes(audits[|old(audits)|], p, found)
                && (audits[|old(audits)|].success <==>
                      p.event == "payment.captured" || p.event == "payment_link.paid"
                      || p.paymentStatus == "captured" || p.linkStatus == "paid")
      ensures |reservations.rows| == |old(reservations.rows)| && reservations.stock == old(reservations.stock)
      ensures forall r :: 0 <= r < |reservations.rows| ==>
                var was := old(reservations.rows)[r];
                reservations.rows[r] ==
                  if was.status == Held && ExtractNotes(p).invoice.Some? && ExtractNotes(p).invoice.value.uuid == Some(was.invoice)
                     && (p.event == "payment.captured" || p.event == "payment_link.paid"
                         || p.paymentStatus == "captured" || p.linkStatus == "paid")
                  then was.(status := Paid) else was
    {
      RowDescribes(p, found);
      WriteInvoiceAudit(AuditRowOf(p, found));
      var invoice := ExtractNotes(p).invoice;
      if IsPaymentSuccess(p) && invoice.Some? {
        // an id that is not a UUID raises ValueError, which is swallowed
        if invoice.value.uuid.Some? {
          var count := reservations.MarkReservedPaid(invoice.value.uuid.value);
        }
      }
    }
  }

  // ---------- redelivery ----------

  /** A delivery of `p` would change nothing: its audit row is there, and its invoice has nothing on hold. */
  ghost predicate Absorbed(t: Tables, p: Payload)
  {
    && (exists k :: 0 <= k < |t.audits| && t.audits[k].invoice == AuditInvoiceId(p) && t.audits[k].paymentId == PaymentId(p))
    && (PaidInvoice(p).Some? ==> HeldIdsOf(t.db.rows, PaidInvoice(p).value) == {})
  }

  /** What may happen between a delivery and its repetition. */
  datatype Event =
    | Deliver(payload: Payload, found: Lookup)
      // the process died between the audit insert and the holds
    | DeliverHalf(payload: Payload, found: Lookup)
    | Ledger(op: Op)

  ghost function Happen(t: Tables, e: Event): Tables
  {
    match e
    case Deliver(p, found) => Processed(t, p, found)
    case DeliverHalf(p, found) => WriteAudit(t, p, found)
    case Ledger(op) => t.(db := Do(t.db, op))
  }

  ghost function HappenAll(t: Tables, events: seq<Event>): Tables
    decreases |events|
  {
    if events == [] then t else HappenAll(Happen(t, events[0]), events[1..])
  }

  /** The event takes no new hold for the invoice `p` pays. */
  predicate NoNewHold(e: Event, p: Payload)
  {
    e.Ledger? && e.op.Reserve? ==> PaidInvoice(p) != Some(e.op.invoice)
  }

  lemma MarkedHasNoHold(rows: seq<Row>, invoice: InvoiceId)
    ensures HeldIdsOf(Mark(rows, HeldIdsOf(rows, invoice), Paid), invoice) == {}
  {
  }

  lemma DeliveryIsAbsorbed(t: Tables, p: Payload, found: Lookup)
    requires PaymentId(p).Some?
    ensures Absorbed(Processed(t, p, found), p)
  {
    var after := WriteAudit(t, p, found);
    var row := AuditRowOf(p, found);
    if !Collides(t.audits, row) {
      assert after.audits[|t.audits|] == row;
    }
    if PaidInvoice(p).Some? {
      MarkedHasNoHold(t.db.rows, PaidInvoice(p).value);
    }
  }

  lemma StaysAbsorbed(t: Tables, p: Payload, e: Event)
    requires Absorbed(t, p) && NoNewHold(e, p)
    ensures Absorbed(Happen(t, e), p)
  {
    var k :| 0 <= k < |t.audits| && t.audits[k].invoice == AuditInvoiceId(p) && t.audits[k].paymentId == PaymentId(p);
    assert Happen(t, e).audits[k] == t.audits[k];
    if PaidInvoice(p).Some? {
      NoHoldAppears(t.db, PaidInvoice(p).value, e);
      assert Happen(t, e).db == AfterEvent(t.db, e);
    }
  }

  ghost function AfterEvent(db: Db, e: Event): Db
  {
    Happen(Tables([], db), e).db
  }

  lemma NoHoldAppears(db: Db, invoice: InvoiceId, e: Event)
    requires HeldIdsOf(db.rows, invoice) == {}
    requires e.Ledger? && e.op.Reserve? ==> e.op.invoice != invoice
    ensures HeldIdsOf(AfterEvent(db, e).rows, invoice) == {}
  {
    var after := AfterEvent(db, e);
    forall r | 0 <= r < |after.rows| ensures r !in HeldIdsOf(after.rows, invoice) {
      if r < |db.rows| {
        assert r !in HeldIdsOf(db.rows, invoice);
      }
    }
  }

  lemma AbsorbedDeliveryChangesNothing(t: Tables, p: Payload, found: Lookup)
    requires Absorbed(t, p) && PaymentId(p).Some?
    ensures Processed(t, p, found) == t && WriteAudit(t, p, found) == t
  {
    if PaidInvoice(p).Some? {
      var invoice := PaidInvoice(p).value;
      assert Mark(t.db.rows, HeldIdsOf(t.db.rows, invoice), Paid) == t.db.rows;
    }
  }

  lemma {:induction false} AbsorbedThroughout(t: Tables, p: Payload, events: seq<Event>)
    requires Absorbed(t, p) && forall k :: 0 <= k < |events| ==> NoNewHold(events[k], p)
    ensures Absorbed(HappenAll(t, events), p)
    decreases |events|
  {
    if events != [] {
      StaysAbsorbed(t, p, events[0]);
      AbsorbedThroughout(Happen(t, events[0]), p, events[1..]);
    }
  }

  lemma {:induction false} HappenInTurn(t: Tables, first: seq<Event>, second: seq<Event>)
    ensures HappenAll(t, first + second) == HappenAll(HappenAll(t, first), second)
    decreases |first|
  {
    if first == [] {
      assert first + second == second;
    } else {
      assert (first + second)[0] == first[0] && (first + second)[1..] == first[1..] + second;
      HappenInTurn(Happen(t, first[0]), first[1..], second);
    }
  }

  /**
   A repeated delivery can be struck from any history, whatever happened in between and after, as
   long as the payment has an id and no new hold was taken for its invoice in the meantime.
   */
  lemma RedeliveryCanBeStruck(t: Tables, p: Payload, found: Lookup, between: seq<Event>, again: Event, after: seq<Event>)
    requires PaymentId(p).Some? && forall k :: 0 <= k < |between| ==> NoNewHold(between[k], p)
    requires !again.Ledger? && again.payload == p
    ensures HappenAll(t, [Deliver(p, found)] + between + [again] + after) == HappenAll(t, [Deliver(p, found)] + between + after)
  {
    var first := [Deliver(p, found)];
    var u := HappenAll(t, first + between);
    HappenInTurn(t, first, between);
    assert HappenAll(t, first) == Processed(t, p, found) by { assert first[1..] == []; }
    DeliveryIsAbsorbed(t, p, found);
    AbsorbedThroughout(HappenAll(t, first), p, between);
    AbsorbedDeliveryChangesNothing(u, p, again.found);
    HappenInTurn(t, first + between, [again] + after);
    assert first + between + ([again] + after) == first + between + [again] + after;
    assert ([again] + after)[1..] == after;
    HappenInTurn(t, first + between, after);
  }

  /** The audit table tells a repetition apart exactly when the payment has an id. */
  lemma AuditIdempotentExactlyWhen(t: Tables, p: Payload, found: Lookup, found': Lookup)
    ensures Processed(Processed(t, p, found), p, found').audits == Processed(t, p, found).audits <==> PaymentId(p).Some?
  {
    if PaymentId(p).Some? {
      DeliveryIsAbsorbed(t, p, found);
      AbsorbedDeliveryChangesNothing(Processed(t, p, found), p, found');
    } else {
      assert |Processed(Processed(t, p, found), p, found').audits| == |Processed(t, p, found).audits| + 1;
    }
  }

  /** With its audit row in place, a delivery still changes something exactly when it finds holds to pay. */
  lemma RepetitionChangesExactlyWhen(t: Tables, p: Payload, found: Lookup)
    requires PaymentId(p).Some? && Collides(t.audits, AuditRowOf(p, found))
    ensures Processed(t, p, found) != t <==> PaidInvoice(p).Some? && HeldIdsOf(t.db.rows, PaidInvoice(p).value) != {}
  {
    if PaidInvoice(p).Some? {
      var ids := HeldIdsOf(t.db.rows, PaidInvoice(p).value);
      if r :| r in ids {
        assert Processed(t, p, found).db.rows[r].status == Paid;
      } else {
        assert Mark(t.db.rows, ids, Paid) == t.db.rows;
      }
    }
  }
}
