/**
 The webhook consumer on one partition: fetch, process, commit the offset, seek back on any failure.
 It is the only active consumer of the partition; a crash or rebalance restarts it at the committed
 offset.  A message is either a well-formed payload or one that can never be processed.
 */
module WebhookConsumer {
  import opened Outcomes
  import opened Holds
  import opened HoldLedger
  import opened Webhook

  datatype Message = Good(payload: Payload) | Malformed

  /** Where in the body of the loop the consumer is; `offset` is the message it holds. */
  datatype Phase = Waiting | Fetched(offset: nat) | AuditWritten(offset: nat) | HoldsSettled(offset: nat)

  /**
   `done` lists, in time order, every complete processing of an offset; `audited` every audit insert.
   `once` is what the tables would be if each offset had been worked on at its first time only.
   All three are history variables.
   */
  datatype State = State(
    log: seq<Message>,
    committed: nat,
    position: nat,
    phase: Phase,
    tables: Tables,
    audited: seq<nat>,
    done: seq<nat>,
    once: Tables)

  datatype Action =
    | Fetch
    | AuditStep(found: Lookup)
    | HoldsStep
    | CommitOffset
      // the broker stored the offset, the consumer saw an error and seeks back
    | CommitUnseen
      // an exception anywhere in the loop body: seek back to the message
    | Fail
      // the process dies or loses the partition
    | Restart
    | Arrive(message: Message)
      // the rest of the world: reservations, sweeps, other payment marks
    | Elsewhere(op: Op)

  ghost predicate Enabled(s: State, a: Action)
  {
    match a
    case Fetch => s.phase.Waiting? && s.position < |s.log|
    case AuditStep(_) => s.phase.Fetched? && s.phase.offset < |s.log| && s.log[s.phase.offset].Good?
    case HoldsStep => s.phase.AuditWritten? && s.phase.offset < |s.log| && s.log[s.phase.offset].Good?
    case CommitOffset => s.phase.HoldsSettled?
    case CommitUnseen => s.phase.HoldsSettled?
    case Fail => !s.phase.Waiting?
    case Restart => true
    case Arrive(_) => true
    case Elsewhere(op) => true
  }

  ghost function Apply(s: State, a: Action): State
    requires Enabled(s, a)
  {
    match a
    case Fetch => s.(phase := Fetched(s.position), position := s.position + 1)
    case AuditStep(found) =>
      var o := s.phase.offset;
      var p := s.log[o].payload;
      s.(phase := AuditWritten(o), tables := WriteAudit(s.tables, p, found), audited := s.audited + [o],
         once := if o in s.audited then s.once else WriteAudit(s.once, p, found))
    case HoldsStep =>
      var o := s.phase.offset;
      var p := s.log[o].payload;
      s.(phase := HoldsSettled(o), tables := SettleHolds(s.tables, p), done := s.done + [o],
         once := if o in s.done then s.once else SettleHolds(s.once, p))
    case CommitOffset => s.(phase := Waiting, committed := s.phase.offset + 1)
    case CommitUnseen => s.(phase := Waiting, committed := s.phase.offset + 1, position := s.phase.offset)
    case Fail => s.(phase := Waiting, position := s.phase.offset)
    case Restart => s.(phase := Waiting, position := s.committed)
    case Arrive(message) => s.(log := s.log + [message])
    case Elsewhere(op) =>
      s.(tables := s.tables.(db := Do(s.tables.db, op)), once := s.once.(db := Do(s.once.db, op)))
  }

  ghost predicate Executes(s: State, run: seq<Action>, t: State)
    decreases |run|
  {
    if run == [] then s == t else Enabled(s, run[0]) && Executes(Apply(s, run[0]), run[1..], t)
  }

  ghost predicate Initial(s: State)
  {
    s.committed == s.position == 0 && s.phase.Waiting? && s.audited == [] && s.done == [] && s.once == s.tables
  }

  // ---------- nothing below the committed offset is missing ----------

  /** The first time an offset is completed, every smaller offset has been completed before. */
  ghost predicate InOrder(done: seq<nat>)
  {
    forall k :: 0 <= k < |done| && done[k] > 0 ==> done[k] - 1 in done[..k]
  }

  /** Whatever was completed is well-formed and has been audited. */
  ghost predicate Sound(log: seq<Message>, audited: seq<nat>, done: seq<nat>)
  {
    forall k :: 0 <= k < |done| ==> done[k] < |log| && log[done[k]].Good? && done[k] in audited
  }

  /** Completed in order, and everything below the committed offset is completed. */
  ghost predicate Recorded(log: seq<Message>, audited: seq<nat>, done: seq<nat>, committed: nat)
  {
    InOrder(done) && Sound(log, audited, done) && committed <= |log| && forall o :: 0 <= o < committed ==> o in done
  }

  ghost predicate InHand(s: State, o: nat)
  {
    o < |s.log| && s.position == o + 1 && o <= s.committed <= o + 1
  }

  /** Where the loop is, relative to the committed offset. */
  ghost predicate Placed(s: State)
  {
    match s.phase
    case Waiting => s.position <= |s.log| && s.position <= s.committed <= s.position + 1
    case Fetched(o) => InHand(s, o)
    case AuditWritten(o) => InHand(s, o) && o in s.audited
    case HoldsSettled(o) => InHand(s, o) && o in s.done
  }

  ghost predicate Progress(s: State)
  {
    Recorded(s.log, s.audited, s.done, s.committed) && Placed(s)
  }

  lemma CompletionInOrder(done: seq<nat>, o: nat)
    requires InOrder(done) && (o > 0 ==> o - 1 in done)
    ensures InOrder(done + [o]) && o in done + [o] && forall d :: d in done ==> d in done + [o]
  {
    forall k | 0 <= k <= |done| && (done + [o])[k] > 0 ensures (done + [o])[k] - 1 in (done + [o])[..k] {
      assert (done + [o])[..k] == done[..k];
      if k == |done| {
        assert done[..k] == done;
      }
    }
  }

  lemma CompletionRecorded(log: seq<Message>, audited: seq<nat>, done: seq<nat>, committed: nat, o: nat)
    requires Recorded(log, audited, done, committed) && o <= committed && o < |log| && log[o].Good? && o in audited
    ensures Recorded(log, audited, done + [o], committed) && o in done + [o]
  {
    CompletionInOrder(done, o);
  }

  lemma AuditRecorded(log: seq<Message>, audited: seq<nat>, done: seq<nat>, committed: nat, o: nat)
    requires Recorded(log, audited, done, committed)
    ensures Recorded(log, audited + [o], done, committed) && o in audited + [o]
  {
    assert (audited + [o])[|audited|] == o;
    assert forall a :: a in audited ==> a in audited + [o];
  }

  lemma ArrivalRecorded(log: seq<Message>, audited: seq<nat>, done: seq<nat>, committed: nat, message: Message)
    requires Recorded(log, audited, done, committed)
    ensures Recorded(log + [message], audited, done, committed)
  {
  }

  lemma CommitRecorded(log: seq<Message>, audited: seq<nat>, done: seq<nat>, committed: nat, o: nat)
    requires Recorded(log, audited, done, committed) && o <= committed && o < |log| && o in done
    ensures Recorded(log, audited, done, o + 1)
  {
  }

  lemma StepKeepsProgress(s: State, a: Action)
    requires Progress(s) && Enabled(s, a)
    ensures Progress(Apply(s, a))
  {
    match a {
      case HoldsStep => CompletionRecorded(s.log, s.audited, s.done, s.committed, s.phase.offset);
      case AuditStep(_) => AuditRecorded(s.log, s.audited, s.done, s.committed, s.phase.offset);
      case Arrive(message) => ArrivalRecorded(s.log, s.audited, s.done, s.committed, message);
      case CommitOffset => CommitRecorded(s.log, s.audited, s.done, s.committed, s.phase.offset);
      case CommitUnseen => CommitRecorded(s.log, s.audited, s.done, s.committed, s.phase.offset);
      case _ =>
    }
  }

  lemma {:induction false} RunKeepsProgress(s: State, run: seq<Action>, t: State)
    requires Progress(s) && Executes(s, run, t)
    ensures Progress(t)
    decreases |run|
  {
    if run != [] {
      StepKeepsProgress(s, run[0]);
      RunKeepsProgress(Apply(s, run[0]), run[1..], t);
    }
  }

  /** Under any failures and restarts every message below the committed offset was fully processed, in order. */
  lemma CommittedMeansProcessed(s: State, run: seq<Action>, t: State)
    requires Initial(s) && Executes(s, run, t)
    ensures forall o :: 0 <= o < t.committed ==> o in t.done
    ensures InOrder(t.done)
  {
    RunKeepsProgress(s, run, t);
  }

  lemma CompletedIsGood(log: seq<Message>, audited: seq<nat>, done: seq<nat>, o: nat)
    requires Sound(log, audited, done) && o in done
    ensures o < |log| && log[o].Good? && o in audited
  {
    var k :| 0 <= k < |done| && done[k] == o;
    assert log[done[k]].Good?;
  }

  /** A malformed message is never skipped: the committed offset stops in front of it. */
  lemma MalformedBlocks(s: State, run: seq<Action>, t: State, o: nat)
    requires Initial(s) && Executes(s, run, t) && o < |t.log| && t.log[o].Malformed?
    ensures t.committed <= o
  {
    RunKeepsProgress(s, run, t);
    if o < t.committed {
      CompletedIsGood(t.log, t.audited, t.done, o);
    }
  }

  // ---------- which logs can be drained ----------

  lemma StepsRun(s: State, a: Action, rest: seq<Action>, t: State)
    requires Enabled(s, a) && Executes(Apply(s, a), rest, t)
    ensures Executes(s, [a] + rest, t)
  {
    assert ([a] + rest)[1..] == rest;
  }

  /** Some run of the consumer, failures and all, commits everything in the log. */
  ghost predicate Drainable(s: State)
  {
    exists run: seq<Action>, t: State :: Executes(s, run, t) && t.committed == |t.log|
  }

  lemma {:induction false} LogOnlyGrows(s: State, run: seq<Action>, t: State)
    requires Executes(s, run, t)
    ensures s.log <= t.log
    decreases |run|
  {
    if run != [] {
      LogOnlyGrows(Apply(s, run[0]), run[1..], t);
    }
  }

  ghost predicate AllGoodFrom(log: seq<Message>, from: nat)
  {
    forall o :: from <= o < |log| ==> log[o].Good?
  }

  /** One message fetched, processed and committed without a fault. */
  lemma PassMessage(s: State) returns (a: State, b: State, c: State, t: State)
    requires Progress(s) && s.phase.Waiting? && s.position == s.committed < |s.log| && s.log[s.committed].Good?
    ensures Enabled(s, Fetch) && a == Apply(s, Fetch)
    ensures Enabled(a, AuditStep(Lookup("", ""))) && b == Apply(a, AuditStep(Lookup("", "")))
    ensures Enabled(b, HoldsStep) && c == Apply(b, HoldsStep)
    ensures Enabled(c, CommitOffset) && t == Apply(c, CommitOffset)
    ensures Progress(t) && t.phase.Waiting? && t.position == t.committed == s.committed + 1 && t.log == s.log
  {
    a := Apply(s, Fetch);
    b := Apply(a, AuditStep(Lookup("", "")));
    c := Apply(b, HoldsStep);
    t := Apply(c, CommitOffset);
    StepKeepsProgress(s, Fetch);
    StepKeepsProgress(a, AuditStep(Lookup("", "")));
    StepKeepsProgress(b, HoldsStep);
    StepKeepsProgress(c, CommitOffset);
  }

  lemma {:induction false} DrainsFrom(s: State) returns (run: seq<Action>, t: State)
    requires Progress(s) && s.phase.Waiting? && s.position == s.committed && AllGoodFrom(s.log, s.committed)
    ensures Executes(s, run, t) && t.committed == |t.log|
    decreases |s.log| - s.committed
  {
    if s.committed == |s.log| {
      run, t := [], s;
    } else {
      var a, b, c, next := PassMessage(s);
      run, t := DrainsFrom(next);
      StepsRun(c, CommitOffset, run, t);
      run := [CommitOffset] + run;
      StepsRun(b, HoldsStep, run, t);
      run := [HoldsStep] + run;
      StepsRun(a, AuditStep(Lookup("", "")), run, t);
      run := [AuditStep(Lookup("", ""))] + run;
      StepsRun(s, Fetch, run, t);
      run := [Fetch] + run;
    }
  }

  /**
   A log can be drained, from whatever state failures and restarts have led to, exactly when no
   malformed message stands at or above the committed offset.
   */
  lemma DrainableExactlyWhen(s: State, run: seq<Action>, t: State)
    requires Initial(s) && Executes(s, run, t)
    ensures Drainable(t) <==> AllGoodFrom(t.log, t.committed)
  {
    RunKeepsProgress(s, run, t);
    if AllGoodFrom(t.log, t.committed) {
      var u := Apply(t, Restart);
      StepKeepsProgress(t, Restart);
      var rest, v := DrainsFrom(u);
      StepsRun(t, Restart, rest, v);
    }
    if Drainable(t) {
      var more, u :| Executes(t, more, u) && u.committed == |u.log|;
      RunKeepsProgress(t, more, u);
      LogOnlyGrows(t, more, u);
      forall o | t.committed <= o < |t.log| ensures t.log[o].Good? {
        assert u.log[o] == t.log[o] && o in u.done;
        CompletedIsGood(u.log, u.audited, u.done, o);
      }
    }
  }

  // ---------- at least once has the effect of once ----------

  ghost predicate HaveIds(log: seq<Message>)
  {
    forall k :: 0 <= k < |log| && log[k].Good? ==> PaymentId(log[k].payload).Some?
  }

  ghost predicate AuditPresent(audits: seq<AuditRow>, p: Payload)
  {
    exists k :: 0 <= k < |audits| && audits[k].invoice == AuditInvoiceId(p) && audits[k].paymentId == PaymentId(p)
  }

  ghost predicate NothingHeld(t: Tables, p: Payload)
  {
    PaidInvoice(p).Some? ==> HeldIdsOf(t.db.rows, PaidInvoice(p).value) == {}
  }

  ghost predicate Effective(s: State)
  {
    && s.tables == s.once && HaveIds(s.log)
    && (forall k :: 0 <= k < |s.audited| ==>
          s.audited[k] < |s.log| && s.log[s.audited[k]].Good? && AuditPresent(s.tables.audits, s.log[s.audited[k]].payload))
    && (forall k :: 0 <= k < |s.done| ==>
          s.done[k] < |s.log| && s.log[s.done[k]].Good? && NothingHeld(s.tables, s.log[s.done[k]].payload))
  }

  /** Arriving payments carry an id, and no hold is taken for an invoice after its payment was processed. */
  ghost predicate Ordinary(s: State, a: Action)
  {
    && (a.Arrive? && a.message.Good? ==> PaymentId(a.message.payload).Some?)
    && (a.Elsewhere? && a.op.Reserve? ==>
          forall k :: 0 <= k < |s.done| && s.done[k] < |s.log| && s.log[s.done[k]].Good? ==>
            PaidInvoice(s.log[s.done[k]].payload) != Some(a.op.invoice))
  }

  ghost predicate OrdinaryRun(s: State, run: seq<Action>)
    decreases |run|
  {
    run == [] || (Enabled(s, run[0]) && Ordinary(s, run[0]) && OrdinaryRun(Apply(s, run[0]), run[1..]))
  }

  lemma AuditPresentAfter(t: Tables, p: Payload, found: Lookup)
    requires PaymentId(p).Some?
    ensures AuditPresent(WriteAudit(t, p, found).audits, p)
    ensures AuditPresent(t.audits, p) ==> WriteAudit(t, p, found) == t
  {
    var row := AuditRowOf(p, found);
    if !Collides(t.audits, row) {
      assert WriteAudit(t, p, found).audits[|t.audits|] == row;
    }
  }

  lemma AuditsOnlyGrow(t: Tables, p: Payload, found: Lookup, q: Payload)
    requires AuditPresent(t.audits, q)
    ensures AuditPresent(WriteAudit(t, p, found).audits, q)
  {
    var k :| 0 <= k < |t.audits| && t.audits[k].invoice == AuditInvoiceId(q) && t.audits[k].paymentId == PaymentId(q);
    assert WriteAudit(t, p, found).audits[k] == t.audits[k];
  }

  lemma SettledAlready(t: Tables, p: Payload)
    ensures NothingHeld(SettleHolds(t, p), p)
    ensures NothingHeld(t, p) ==> SettleHolds(t, p) == t
  {
    if PaidInvoice(p).Some? {
      var invoice := PaidInvoice(p).value;
      MarkedHasNoHold(t.db.rows, invoice);
      if HeldIdsOf(t.db.rows, invoice) == {} {
        assert Mark(t.db.rows, {}, Paid) == t.db.rows;
      }
    }
  }

  lemma SettlingTakesNoHold(t: Tables, p: Payload, q: Payload)
    requires NothingHeld(t, q)
    ensures NothingHeld(SettleHolds(t, p), q)
  {
    if PaidInvoice(q).Some? && PaidInvoice(p).Some? {
      NoHoldAppears(t.db, PaidInvoice(q).value, Ledger(Pay(PaidInvoice(p).value)));
    }
  }

  lemma AuditStepEffective(s: State, found: Lookup)
    requires Progress(s) && Effective(s) && Enabled(s, AuditStep(found))
    ensures Effective(Apply(s, AuditStep(found)))
  {
    var t, p := Apply(s, AuditStep(found)), s.log[s.phase.offset].payload;
    AuditPresentAfter(s.tables, p, found);
    if s.phase.offset in s.audited {
      assert AuditPresent(s.tables.audits, p);
    }
    forall k | 0 <= k < |t.audited| ensures AuditPresent(t.tables.audits, s.log[t.audited[k]].payload) {
      if k < |s.audited| {
        AuditsOnlyGrow(s.tables, p, found, s.log[s.audited[k]].payload);
      }
    }
    assert t.tables.db == s.tables.db;
  }

  lemma HoldsStepEffective(s: State)
    requires Progress(s) && Effective(s) && Enabled(s, HoldsStep)
    ensures Effective(Apply(s, HoldsStep))
  {
    var t, p := Apply(s, HoldsStep), s.log[s.phase.offset].payload;
    SettledAlready(s.tables, p);
    if s.phase.offset in s.done {
      assert NothingHeld(s.tables, p);
    }
    forall k | 0 <= k < |t.done| ensures NothingHeld(t.tables, s.log[t.done[k]].payload) {
      if k < |s.done| {
        SettlingTakesNoHold(s.tables, p, s.log[s.done[k]].payload);
      }
    }
    assert t.tables.audits == s.tables.audits;
  }

  lemma ElsewhereEffective(s: State, op: Op)
    requires Effective(s) && Ordinary(s, Elsewhere(op))
    ensures Effective(Apply(s, Elsewhere(op)))
  {
    var t := Apply(s, Elsewhere(op));
    forall k | 0 <= k < |s.done| ensures NothingHeld(t.tables, s.log[s.done[k]].payload) {
      var p := s.log[s.done[k]].payload;
      assert NothingHeld(s.tables, p);
      if PaidInvoice(p).Some? {
        NoHoldAppears(s.tables.db, PaidInvoice(p).value, Ledger(op));
      }
    }
  }

  lemma StepKeepsEffective(s: State, a: Action)
    requires Progress(s) && Effective(s) && Enabled(s, a) && Ordinary(s, a)
    ensures Effective(Apply(s, a))
  {
    match a {
      case AuditStep(found) => AuditStepEffective(s, found);
      case HoldsStep => HoldsStepEffective(s);
      case Elsewhere(op) => ElsewhereEffective(s, op);
      case _ =>
    }
  }

  lemma {:induction false} RunKeepsEffective(s: State, run: seq<Action>, t: State)
    requires Progress(s) && Effective(s) && Executes(s, run, t) && OrdinaryRun(s, run)
    ensures Effective(t)
    decreases |run|
  {
    if run != [] {
      StepKeepsProgress(s, run[0]);
      StepKeepsEffective(s, run[0]);
      RunKeepsEffective(Apply(s, run[0]), run[1..], t);
    }
  }

  /**
   At-least-once delivery has the effect of exactly-once delivery: after any ordinary run, with any
   number of failures, unseen commits and restarts, audit rows, stock and holds are what they would
   be had every message been worked on at its first time only.
   */
  lemma EffectivelyOnce(s: State, run: seq<Action>, t: State)
    requires Initial(s) && HaveIds(s.log) && Executes(s, run, t) && OrdinaryRun(s, run)
    ensures t.tables == t.once
  {
    RunKeepsEffective(s, run, t);
  }

  // ---------- the loop body ----------

  /** Where an exception strikes in one pass of the loop. */
  datatype Fault = NoFault | BeforeAudit | BeforeHolds | BeforeCommit | CommitUnacknowledged

  /** The steps one pass takes from the message it fetches. */
  ghost function Pass(message: Message, found: Lookup, fault: Fault): seq<Action>
  {
    if message.Malformed? || fault == BeforeAudit then [Fetch, Fail]
    else if fault == BeforeHolds then [Fetch, AuditStep(found), Fail]
    else if fault == BeforeCommit then [Fetch, AuditStep(found), HoldsStep, Fail]
    else if fault == CommitUnacknowledged then [Fetch, AuditStep(found), HoldsStep, CommitUnseen]
    else [Fetch, AuditStep(found), HoldsStep, CommitOffset]
  }

  class Consumer {
    var log: seq<Message>
    var committed: nat
    var position: nat
    var tables: Tables
    ghost var audited: seq<nat>
    ghost var done: seq<nat>
    ghost var once: Tables

    ghost function View(): State
      reads this
    {
      State(log, committed, position, Waiting, tables, audited, done, once)
    }

    /** One pass of `consume_forever`: what it does is a run of the machine, whatever goes wrong. */
    method ConsumeNext(found: Lookup, fault: Fault)
      requires position < |log|
      modifies this
      ensures Executes(old(View()), Pass(old(log[position]), found, fault), View())
      ensures log == old(log) && position == if GoesOn(old(log[position]), fault) then old(position) + 1 else old(position)
    {
      ghost var before := View();
      var o, message, failed := position, log[position], true;
      position := o + 1;
      if message.Good? && fault != BeforeAudit {
        tables := WriteAudit(tables, message.payload, found);
        if fault != BeforeHolds {
          tables := SettleHolds(tables, message.payload);
          if fault != BeforeCommit {
            committed := o + 1;
            failed := fault == CommitUnacknowledged;
          }
        }
      }
      if failed {
        position := o;
      }
      ghost var after := AfterPass(before, found, fault);
      PassTables(before, found, fault);
      audited, done, once := after.audited, after.done, after.once;
      PassRuns(before, found, fault, View());
    }
  }

  predicate GoesOn(message: Message, fault: Fault)
  {
    message.Good? && fault == NoFault
  }

  ghost function AfterPass(s: State, found: Lookup, fault: Fault): State
    requires s.phase.Waiting? && s.position < |s.log|
  {
    var o, message := s.position, s.log[s.position];
    if message.Malformed? || fault == BeforeAudit then s
    else
      var p := message.payload;
      var audit := s.(tables := WriteAudit(s.tables, p, found), audited := s.audited + [o],
                      once := if o in s.audited then s.once else WriteAudit(s.once, p, found));
      if fault == BeforeHolds then audit
      else
        var settled := audit.(tables := SettleHolds(audit.tables, p), done := s.done + [o],
                              once := if o in s.done then audit.once else SettleHolds(audit.once, p));
        if fault == BeforeCommit then settled
        else settled.(committed := o + 1, position := if fault == CommitUnacknowledged then o else o + 1)
  }

  /** What a pass leaves in the tables and where it leaves the consumer, fault by fault. */
  lemma PassTables(s: State, found: Lookup, fault: Fault)
    requires s.phase.Waiting? && s.position < |s.log|
    ensures var after, o, message := AfterPass(s, found, fault), s.position, s.log[s.position];
            && after.log == s.log && after.phase.Waiting?
            && after.position == (if GoesOn(message, fault) then o + 1 else o)
            && after.committed == (if message.Good? && fault in {NoFault, CommitUnacknowledged} then o + 1 else s.committed)
            && after.tables == (if message.Malformed? || fault == BeforeAudit then s.tables
                                else if fault == BeforeHolds then WriteAudit(s.tables, message.payload, found)
                                else Processed(s.tables, message.payload, found))
  {
  }

  lemma PassRuns(s: State, found: Lookup, fault: Fault, t: State)
    requires s.phase.Waiting? && s.position < |s.log| && t == AfterPass(s, found, fault)
    ensures Executes(s, Pass(s.log[s.position], found, fault), t)
  {
    var fetched := Apply(s, Fetch);
    assert Executes(t, [], t);
    if s.log[s.position].Malformed? || fault == BeforeAudit {
      StepsRun(fetched, Fail, [], t);
      assert [Fail] + [] == [Fail];
      StepsRun(s, Fetch, [Fail], t);
    } else {
      AuditedRuns(fetched, found, fault, t);
      StepsRun(s, Fetch, Pass(s.log[s.position], found, fault)[1..], t);
    }
  }

  lemma AuditedRuns(s: State, found: Lookup, fault: Fault, t: State)
    requires s.phase.Fetched? && s.phase.offset < |s.log| && s.log[s.phase.offset].Good? && fault != BeforeAudit
    requires t == AfterPass(s.(phase := Waiting, position := s.phase.offset), found, fault) && s.position == s.phase.offset + 1
    ensures Executes(s, Pass(s.log[s.phase.offset], found, fault)[1..], t)
  {
    var audit := Apply(s, AuditStep(found));
    assert Executes(t, [], t);
    if fault == BeforeHolds {
      StepsRun(audit, Fail, [], t);
      assert [Fail] + [] == [Fail];
      StepsRun(s, AuditStep(found), [Fail], t);
    } else {
      var last := if fault == BeforeCommit then Fail else if fault == CommitUnacknowledged then CommitUnseen else CommitOffset;
      StepsRun(Apply(audit, HoldsStep), last, [], t);
      assert [last] + [] == [last];
      StepsRun(audit, HoldsStep, [last], t);
      StepsRun(s, AuditStep(found), [HoldsStep] + [last], t);
      assert Pass(s.log[s.phase.offset], found, fault)[1..] == [AuditStep(found)] + ([HoldsStep] + [last]);
    }
  }
}
