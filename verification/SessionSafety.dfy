/**
 All sessions and turns together, node by node.  Every node saves the whole state of its turn, so a
 session is the collection of its saved snapshots: a turn may start from any of them, or from none
 (the keys expire, and concurrent turns overwrite each other).  A turn may die in front of any node,
 or between a node's effect and its save.
 */
module SessionSafety {
  import opened Outcomes
  import opened CartFilter
  import opened Conversation

  datatype Snapshot = Snapshot(session: nat, st: OrderState)

  /**
   `awaited` is the flag the turn found when it loaded its session, `known` how many offers had been
   made by then, `path` the nodes it has completed; all three are history variables.
   */
  datatype Turn = Turn(session: nat, request: Request, node: Node, st: OrderState, awaited: bool, known: nat, path: seq<Node>)

  /** An offer made to a session, with the state it was made on. */
  datatype Offered = Offered(session: nat, st: OrderState)

  /**
   `orders` holds the keys of the committed order rows; `offers` and `dispatched` list the offers
   made and the invoice ids sent to reservation and payment, in time order.
   */
  datatype World = World(
    turns: seq<Turn>,
    saved: seq<Snapshot>,
    offers: seq<Offered>,
    orders: set<nat>,
    dispatched: seq<nat>)

  datatype Action =
    | Begin(session: nat, request: Request)
      // the node runs, its state is saved and the edge taken; `state` and `draft` are what the stores still hold
    | Complete(turn: nat, env: Env, state: Option<nat>, draft: Option<nat>)
      // the node had its effect outside the session, then the turn died
    | DieUnsaved(turn: nat, env: Env)
    | Die(turn: nat)

  ghost predicate Readable(w: World, session: nat, k: Option<nat>)
  {
    k.Some? ==> k.value < |w.saved| && w.saved[k.value].session == session
  }

  /** The order row must be new: its primary key is the invoice id. */
  ghost predicate Inserts(w: World, t: Turn, env: Env)
  {
    t.node == GenerateInvoice ==> OrderId(t.st, env) !in w.orders
  }

  ghost predicate Enabled(w: World, a: Action)
  {
    match a
    case Begin(_, _) => true
    case Complete(k, env, state, draft) =>
      k < |w.turns| && w.turns[k].node != End && Inserts(w, w.turns[k], env)
      && Readable(w, w.turns[k].session, state) && Readable(w, w.turns[k].session, draft)
    case DieUnsaved(k, env) => k < |w.turns| && w.turns[k].node != End && Inserts(w, w.turns[k], env)
    case Die(k) => k < |w.turns|
  }

  ghost function StoredAt(w: World, k: Option<nat>): Option<OrderState>
    requires k.Some? ==> k.value < |w.saved|
  {
    if k.Some? then Some(w.saved[k.value].st) else None
  }

  ghost function After(w: World, t: Turn, env: Env, state: Option<nat>, draft: Option<nat>): Turn
    requires Readable(w, t.session, state) && Readable(w, t.session, draft)
  {
    var st := Run(t.node, t.st, t.request, env, StoredAt(w, state), StoredAt(w, draft));
    var next := t.(node := Next(t.node, st), st := st, path := t.path + [t.node]);
    if t.node == LoadSession then next.(awaited := st.awaiting, known := |w.offers|) else next
  }

  ghost function NewOrders(w: World, t: Turn, env: Env): set<nat>
  {
    if t.node == GenerateInvoice then w.orders + {OrderId(t.st, env)} else w.orders
  }

  ghost function NewDispatched(w: World, t: Turn): seq<nat>
  {
    if t.node == Dispatch && t.st.invoice.Some? then w.dispatched + [t.st.invoice.value.orderId] else w.dispatched
  }

  ghost function NewOffers(w: World, t: Turn, after: Turn): seq<Offered>
  {
    if t.node == OfferConfirmation && after.st.awaiting then w.offers + [Offered(t.session, after.st)] else w.offers
  }

  ghost function Ended(w: World, k: nat): seq<Turn>
    requires k < |w.turns|
  {
    w.turns[k := w.turns[k].(node := End)]
  }

  ghost function Apply(w: World, a: Action): World
    requires Enabled(w, a)
  {
    match a
    case Begin(session, request) => w.(turns := w.turns + [Turn(session, request, LoadSession, FRESH, false, 0, [])])
    case Complete(k, env, state, draft) =>
      var t := w.turns[k];
      var after := After(w, t, env, state, draft);
      World(w.turns[k := after], w.saved + [Snapshot(t.session, after.st)], NewOffers(w, t, after),
            NewOrders(w, t, env), NewDispatched(w, t))
    case DieUnsaved(k, env) =>
      w.(turns := Ended(w, k), orders := NewOrders(w, w.turns[k], env), dispatched := NewDispatched(w, w.turns[k]))
    case Die(k) => w.(turns := Ended(w, k))
  }

  ghost predicate Executes(w: World, run: seq<Action>, v: World)
    decreases |run|
  {
    if run == [] then w == v else Enabled(w, run[0]) && Executes(Apply(w, run[0]), run[1..], v)
  }

  const START := World([], [], [], {}, [])

  ghost predicate Reachable(w: World)
  {
    exists run: seq<Action> :: Executes(START, run, w)
  }

  // ---------- the session invariant ----------

  /** Among the first `n` offers is one to this session, made on a complete order. */
  ghost predicate OfferMade(offers: seq<Offered>, session: nat, n: nat)
  {
    exists k :: 0 <= k < n && k < |offers| && offers[k].session == session && Conversation.Complete(offers[k].st)
  }

  ghost predicate GoodState(offers: seq<Offered>, session: nat, st: OrderState)
  {
    Sound(st.lines) && (st.awaiting ==> Filled(st) && OfferMade(offers, session, |offers|))
  }

  /** Once the confirmation is resolved: a go-ahead answers an offer the turn found when it started. */
  ghost predicate Decided(offers: seq<Offered>, t: Turn)
  {
    && !t.st.awaiting && Sound(t.st.lines)
    && (t.st.proceed ==> t.awaited && t.request.proceeds && Filled(t.st) && OfferMade(offers, t.session, t.known))
  }

  ghost predicate Undecided(offers: seq<Offered>, t: Turn)
  {
    && Sound(t.st.lines) && !t.st.proceed && t.st.awaiting == t.awaited
    && (t.awaited ==> Filled(t.st) && OfferMade(offers, t.session, t.known))
  }

  /** Every line can be reserved, unless none can. */
  ghost predicate Invoiceable(lines: seq<Line>)
  {
    (lines != [] && forall k :: 0 <= k < |lines| ==> IsOrderable(lines[k])) || Orderable(lines) == []
  }

  ghost predicate GoodTurn(offers: seq<Offered>, t: Turn)
  {
    && t.known <= |offers|
    && (t.node !in {LoadSession, End} ==> t.st.mandate == t.request.mandate)
    && (3 <= Rank(t.node) <= 11 || t.node in {AskForFields, OfferConfirmation} ==> t.st.unavailable == [])
    && match t.node
       case LoadSession => t.known == 0
       case OffTopicGuard => Undecided(offers, t)
       case ParseIntent => Undecided(offers, t)
       case ResolveConfirmation => Undecided(offers, t)
       case ResolveCatalog => Decided(offers, t)
       case React => Decided(offers, t) && AllLookedUp(t.st.lines)
       case CheckAvailability => Decided(offers, t) && AllLookedUp(t.st.lines)
       case CheckMissing => Decided(offers, t) && AllLookedUp(t.st.lines)
       case SuggestAlternative => Decided(offers, t)
       case AskForFields => Decided(offers, t)
       case OfferConfirmation => Decided(offers, t) && Conversation.Complete(t.st)
       case Finalize => Decided(offers, t) && t.st.proceed
       case GenerateInvoice => Decided(offers, t) && t.st.proceed && Invoiceable(t.st.lines)
       case Dispatch =>
         && !t.st.awaiting && Sound(t.st.lines) && t.st.invoice.Some? && Invoiceable(t.st.invoice.value.lines)
         && t.st.invoice.value.lines == t.st.lines
       case ResolveOutcome => !t.st.awaiting && Sound(t.st.lines)
       case End => true
  }

  ghost predicate SessionsSafe(w: World)
  {
    && (forall k :: 0 <= k < |w.saved| ==> GoodState(w.offers, w.saved[k].session, w.saved[k].st))
    && forall k :: 0 <= k < |w.turns| ==> GoodTurn(w.offers, w.turns[k])
  }

  lemma OfferStaysMade(offers: seq<Offered>, more: seq<Offered>, session: nat, n: nat, m: nat)
    requires OfferMade(offers, session, n) && offers <= more && n <= m
    ensures OfferMade(more, session, m)
  {
    var k :| 0 <= k < n && k < |offers| && offers[k].session == session && Conversation.Complete(offers[k].st);
    assert more[k] == offers[k];
  }

  lemma GoodTurnStays(offers: seq<Offered>, more: seq<Offered>, t: Turn)
    requires GoodTurn(offers, t) && offers <= more
    ensures GoodTurn(more, t)
  {
    if OfferMade(offers, t.session, t.known) {
      OfferStaysMade(offers, more, t.session, t.known, t.known);
    }
  }

  lemma GoodStateStays(offers: seq<Offered>, more: seq<Offered>, session: nat, st: OrderState)
    requires GoodState(offers, session, st) && offers <= more
    ensures GoodState(more, session, st)
  {
    if st.awaiting {
      OfferStaysMade(offers, more, session, |offers|, |more|);
    }
  }

  /** Loading: whatever is still stored, the flag comes with the fields and the offer it stands for. */
  lemma LoadGood(w: World, t: Turn, env: Env, state: Option<nat>, draft: Option<nat>)
    requires SessionsSafe(w) && t.node == LoadSession && Readable(w, t.session, state) && Readable(w, t.session, draft)
    ensures GoodTurn(w.offers, After(w, t, env, state, draft))
    ensures GoodState(w.offers, t.session, After(w, t, env, state, draft).st)
  {
    if state.Some? {
      assert GoodState(w.offers, t.session, w.saved[state.value].st);
    }
    if draft.Some? {
      assert GoodState(w.offers, t.session, w.saved[draft.value].st);
    }
  }

  lemma EarlyNodeGood(w: World, t: Turn, env: Env)
    requires GoodTurn(w.offers, t) && t.node in {OffTopicGuard, ParseIntent, ResolveConfirmation}
    ensures GoodTurn(w.offers, After(w, t, env, None, None))
    ensures GoodState(w.offers, t.session, After(w, t, env, None, None).st)
  {
    ParsedSound(t.st.lines, env);
    if t.awaited {
      OfferStaysMade(w.offers, w.offers, t.session, t.known, |w.offers|);
    }
  }

  lemma CatalogNodeGood(w: World, t: Turn, env: Env)
    requires GoodTurn(w.offers, t) && t.node in {ResolveCatalog, React, CheckAvailability}
    ensures GoodTurn(w.offers, After(w, t, env, None, None))
    ensures GoodState(w.offers, t.session, After(w, t, env, None, None).st)
  {
    if t.node == ResolveCatalog {
      CatalogLooksUp(t.st.lines, env.answers);
      assert forall l :: LookedUp(l) ==> SoundLine(l);
    }
  }

  lemma OrderableSound(lines: seq<Line>)
    ensures Sound(Orderable(lines))
  {
  }

  lemma CheckMissingGood(w: World, t: Turn, env: Env)
    requires GoodTurn(w.offers, t) && t.node == CheckMissing
    ensures GoodTurn(w.offers, After(w, t, env, None, None))
    ensures GoodState(w.offers, t.session, After(w, t, env, None, None).st)
  {
    OrderableSound(t.st.lines);
    var st := CheckFields(t.st);
    assert Sound(st.lines) && st.(lines := [], missing := [], status := Draft) == t.st.(lines := [], missing := [], status := Draft);
    if !t.st.proceed {
      NoFallThrough(t.st);
      if MissingRoute(st) == OfferConfirmation {
        OfferedIsComplete(t.st);
      }
    }
  }

  lemma OfferGood(w: World, t: Turn, env: Env)
    requires GoodTurn(w.offers, t) && t.node == OfferConfirmation
    ensures GoodTurn(NewOffers(w, t, After(w, t, env, None, None)), After(w, t, env, None, None))
    ensures GoodState(NewOffers(w, t, After(w, t, env, None, None)), t.session, After(w, t, env, None, None).st)
  {
    var after := After(w, t, env, None, None);
    var offers := NewOffers(w, t, after);
    assert offers[|w.offers|] == Offered(t.session, after.st);
    assert Conversation.Complete(after.st);
  }

  lemma SuggestGood(w: World, t: Turn, env: Env)
    requires GoodTurn(w.offers, t) && t.node == SuggestAlternative
    ensures GoodTurn(w.offers, After(w, t, env, None, None))
    ensures GoodState(w.offers, t.session, After(w, t, env, None, None).st)
  {
    MarkedSound(t.st.lines, t.st.unavailable, env);
  }

  lemma FinalCheckKeeps(st: OrderState, env: Env)
    ensures var st' := FinalCheck(st, env);
            st'.(lines := [], missing := [], status := Draft, unavailable := [], reservationId := None)
            == st.(lines := [], missing := [], status := Draft, unavailable := [], reservationId := None)
  {
  }

  lemma FinalCheckLines(st: OrderState, env: Env)
    ensures var st' := FinalCheck(st, env);
            && (st'.lines == st.lines || st'.lines == Orderable(st.lines))
            && (st'.unavailable == [] && Orderable(st.lines) != [] ==> st'.lines == Orderable(st.lines))
  {
  }

  lemma FinalizeGood(w: World, t: Turn, env: Env)
    requires GoodTurn(w.offers, t) && t.node == Finalize
    ensures GoodTurn(w.offers, After(w, t, env, None, None))
    ensures GoodState(w.offers, t.session, After(w, t, env, None, None).st)
  {
    FinalCheckKeeps(t.st, env);
    FinalCheckLines(t.st, env);
    OrderableSound(t.st.lines);
    assert Invoiceable(Orderable(t.st.lines));
  }

  lemma LateNodeGood(w: World, t: Turn, env: Env)
    requires GoodTurn(w.offers, t) && t.node in {AskForFields, GenerateInvoice, Dispatch, ResolveOutcome}
    ensures GoodTurn(w.offers, After(w, t, env, None, None))
    ensures GoodState(w.offers, t.session, After(w, t, env, None, None).st)
  {
  }

  /** A node other than the first does not look at the stores. */
  lemma StoresUnread(w: World, t: Turn, env: Env, state: Option<nat>, draft: Option<nat>)
    requires Readable(w, t.session, state) && Readable(w, t.session, draft) && t.node != LoadSession
    ensures After(w, t, env, state, draft) == After(w, t, env, None, None)
  {
  }

  /** What a node leaves behind, the new offer included. */
  ghost predicate LeavesGood(w: World, t: Turn, after: Turn)
  {
    GoodTurn(NewOffers(w, t, after), after) && GoodState(NewOffers(w, t, after), t.session, after.st)
  }

  lemma QuestionNodeGood(w: World, t: Turn, env: Env)
    requires GoodTurn(w.offers, t) && t.node !in {LoadSession, OfferConfirmation, End}
    ensures GoodTurn(w.offers, After(w, t, env, None, None))
    ensures GoodState(w.offers, t.session, After(w, t, env, None, None).st)
  {
    if t.node in {OffTopicGuard, ParseIntent, ResolveConfirmation} {
      EarlyNodeGood(w, t, env);
    } else if t.node in {ResolveCatalog, React, CheckAvailability} {
      CatalogNodeGood(w, t, env);
    } else if t.node == CheckMissing {
      CheckMissingGood(w, t, env);
    } else if t.node == SuggestAlternative {
      SuggestGood(w, t, env);
    } else if t.node == Finalize {
      FinalizeGood(w, t, env);
    } else {
      LateNodeGood(w, t, env);
    }
  }

  lemma NodeGood(w: World, t: Turn, env: Env, state: Option<nat>, draft: Option<nat>)
    requires SessionsSafe(w) && GoodTurn(w.offers, t) && t.node != End
    requires Readable(w, t.session, state) && Readable(w, t.session, draft)
    ensures LeavesGood(w, t, After(w, t, env, state, draft))
  {
    if t.node == LoadSession {
      LoadGood(w, t, env, state, draft);
    } else {
      StoresUnread(w, t, env, state, draft);
      if t.node == OfferConfirmation {
        OfferGood(w, t, env);
      } else {
        QuestionNodeGood(w, t, env);
        assert NewOffers(w, t, After(w, t, env, None, None)) == w.offers;
      }
    }
  }

  lemma CompleteKeepsSafe(w: World, k: nat, env: Env, state: Option<nat>, draft: Option<nat>)
    requires SessionsSafe(w) && Enabled(w, Action.Complete(k, env, state, draft))
    ensures SessionsSafe(Apply(w, Action.Complete(k, env, state, draft)))
  {
    var v := Apply(w, Action.Complete(k, env, state, draft));
    var t := w.turns[k];
    NodeGood(w, t, env, state, draft);
    forall j | 0 <= j < |v.saved| ensures GoodState(v.offers, v.saved[j].session, v.saved[j].st) {
      if j < |w.saved| {
        GoodStateStays(w.offers, v.offers, w.saved[j].session, w.saved[j].st);
      }
    }
    forall j | 0 <= j < |v.turns| ensures GoodTurn(v.offers, v.turns[j]) {
      if j != k {
        GoodTurnStays(w.offers, v.offers, w.turns[j]);
      }
    }
  }

  lemma StepKeepsSafe(w: World, a: Action)
    requires SessionsSafe(w) && Enabled(w, a)
    ensures SessionsSafe(Apply(w, a))
  {
    if a.Complete? {
      CompleteKeepsSafe(w, a.turn, a.env, a.state, a.draft);
    }
  }

  lemma {:induction false} RunKeepsSafe(w: World, run: seq<Action>, v: World)
    requires SessionsSafe(w) && Executes(w, run, v)
    ensures SessionsSafe(v)
    decreases |run|
  {
    if run != [] {
      StepKeepsSafe(w, run[0]);
      RunKeepsSafe(Apply(w, run[0]), run[1..], v);
    }
  }

  /**
   Whatever the language model, the catalog and the other turns do: an invoice is generated only in a
   turn whose message is a go-ahead, which found the confirmation flag, and before which this session
   was made an offer on a complete order; name, address and phone are still there, and only lines
   that can be reserved are invoiced unless there is none.  The mandate is whatever this last request
   carries.
   */
  lemma InvoiceOnlyAfterOffer(w: World, k: nat)
    requires Reachable(w) && k < |w.turns| && w.turns[k].node == GenerateInvoice
    ensures w.turns[k].request.proceeds && w.turns[k].awaited && Filled(w.turns[k].st)
    ensures OfferMade(w.offers, w.turns[k].session, w.turns[k].known)
    ensures Invoiceable(w.turns[k].st.lines) && w.turns[k].st.mandate == w.turns[k].request.mandate
  {
    var run :| Executes(START, run, w);
    RunKeepsSafe(START, run, w);
    assert GoodTurn(w.offers, w.turns[k]);
  }

  /** No stockout is known when the tool loop runs, so it never looks for cross-sells and always leads to the stock check. */
  lemma NoCrossSellInTurns(w: World, k: nat)
    requires Reachable(w) && k < |w.turns| && w.turns[k].node == React
    ensures w.turns[k].st.unavailable == [] && Next(React, w.turns[k].st) == CheckAvailability
  {
    var run :| Executes(START, run, w);
    RunKeepsSafe(START, run, w);
    assert GoodTurn(w.offers, w.turns[k]);
  }

  const LOOKED_UP := [LoadSession, OffTopicGuard, ParseIntent, ResolveConfirmation, ResolveCatalog, React]

  /** The nodes a turn has to complete before it comes to this one, if there is only one way there. */
  function WayTo(node: Node): seq<Node>
  {
    match node
    case OffTopicGuard => [LoadSession]
    case ParseIntent => [LoadSession, OffTopicGuard]
    case ResolveConfirmation => [LoadSession, OffTopicGuard, ParseIntent]
    case ResolveCatalog => [LoadSession, OffTopicGuard, ParseIntent, ResolveConfirmation]
    case React => [LoadSession, OffTopicGuard, ParseIntent, ResolveConfirmation, ResolveCatalog]
    case CheckAvailability => LOOKED_UP
    case CheckMissing => LOOKED_UP + [CheckAvailability]
    case AskForFields => LOOKED_UP + [CheckAvailability, CheckMissing]
    case OfferConfirmation => LOOKED_UP + [CheckAvailability, CheckMissing]
    case Finalize => LOOKED_UP + [CheckAvailability, CheckMissing]
    case GenerateInvoice => LOOKED_UP + [CheckAvailability, CheckMissing, Finalize]
    case Dispatch => LOOKED_UP + [CheckAvailability, CheckMissing, Finalize, GenerateInvoice]
    case ResolveOutcome => LOOKED_UP + [CheckAvailability, CheckMissing, Finalize, GenerateInvoice, Dispatch]
    case _ => []
  }

  ghost predicate OnItsWay(t: Turn)
  {
    t.node in {SuggestAlternative, End} || t.path == WayTo(t.node)
  }

  ghost predicate AllOnTheirWay(w: World)
  {
    forall k :: 0 <= k < |w.turns| ==> OnItsWay(w.turns[k])
  }

  /** `next` can follow `node` on the way. */
  predicate OnTheWay(node: Node, next: Node)
  {
    match next
    case OffTopicGuard => node == LoadSession
    case ParseIntent => node == OffTopicGuard
    case ResolveConfirmation => node == ParseIntent
    case ResolveCatalog => node == ResolveConfirmation
    case React => node == ResolveCatalog
    case CheckAvailability => node == React
    case CheckMissing => node == CheckAvailability
    case AskForFields => node == CheckMissing
    case OfferConfirmation => node == CheckMissing
    case Finalize => node == CheckMissing
    case GenerateInvoice => node == Finalize
    case Dispatch => node == GenerateInvoice
    case ResolveOutcome => node == Dispatch
    case _ => false
  }

  lemma WayGrows(node: Node, next: Node)
    requires OnTheWay(node, next)
    ensures WayTo(next) == WayTo(node) + [node]
  {
  }

  lemma NodeLeadsOn(node: Node, st: OrderState)
    requires node != End && (node == React ==> st.unavailable == [])
    ensures Next(node, st) in {SuggestAlternative, End} || OnTheWay(node, Next(node, st))
    ensures node == SuggestAlternative ==> Next(node, st) == End
  {
  }

  lemma NodeKeepsWay(t: Turn, st: OrderState)
    requires OnItsWay(t) && t.node != End && (t.node == React ==> st.unavailable == [])
    ensures Next(t.node, st) in {SuggestAlternative, End} || t.path + [t.node] == WayTo(Next(t.node, st))
  {
    NodeLeadsOn(t.node, st);
    var next := Next(t.node, st);
    if OnTheWay(t.node, next) {
      WayGrows(t.node, next);
    }
  }

  lemma StepKeepsWay(w: World, a: Action)
    requires AllOnTheirWay(w) && SessionsSafe(w) && Enabled(w, a)
    ensures AllOnTheirWay(Apply(w, a))
  {
    if a.Complete? {
      var t := w.turns[a.turn];
      assert GoodTurn(w.offers, t) && OnItsWay(t);
      NodeKeepsWay(t, After(w, t, a.env, a.state, a.draft).st);
    }
  }

  lemma {:induction false} RunKeepsWay(w: World, run: seq<Action>, v: World)
    requires AllOnTheirWay(w) && SessionsSafe(w) && Executes(w, run, v)
    ensures AllOnTheirWay(v)
    decreases |run|
  {
    if run != [] {
      StepKeepsWay(w, run[0]);
      StepKeepsSafe(w, run[0]);
      RunKeepsWay(Apply(w, run[0]), run[1..], v);
    }
  }

  /**
   No turn asks, offers or invoices before it has completed every node in front, once each and in
   order: the off-topic guard, the message, the answer to an open question, the catalog, the tools,
   the stock and the fields, and for an invoice the last check too.
   */
  lemma ChecksComeFirst(w: World, k: nat)
    requires Reachable(w) && k < |w.turns|
    ensures w.turns[k].node in {AskForFields, OfferConfirmation, Finalize} ==>
      w.turns[k].path
      == [LoadSession, OffTopicGuard, ParseIntent, ResolveConfirmation, ResolveCatalog, React, CheckAvailability, CheckMissing]
    ensures w.turns[k].node == GenerateInvoice ==>
      w.turns[k].path
      == [LoadSession, OffTopicGuard, ParseIntent, ResolveConfirmation, ResolveCatalog, React, CheckAvailability, CheckMissing, Finalize]
  {
    var run :| Executes(START, run, w);
    RunKeepsWay(START, run, w);
    assert OnItsWay(w.turns[k]);
  }

  // ---------- stockouts ----------

  /** A confirmed line with an item and a positive quantity that the stock does not cover. */
  predicate IsShort(line: Line, short: bool)
  {
    line.resolved && line.itemId != "" && line.qty.Some? && line.qty.value != 0 && line.status != StockoutPending && short
  }

  ghost predicate SomethingShort(lines: seq<Line>, short: nat -> bool)
  {
    exists j :: 0 <= j < |lines| && IsShort(lines[j], short(j))
  }

  lemma {:induction false} ShortIsReported(lines: seq<Line>, short: nat -> bool)
    ensures SomethingShort(lines, short) ==> Shortages(lines, short) != []
  {
    if j :| 0 <= j < |lines| && IsShort(lines[j], short(j)) {
      var n := |lines| - 1;
      if j < n {
        assert IsShort(lines[..n][j], short(j));
        ShortIsReported(lines[..n], short);
      }
    }
  }

  lemma {:induction false} LastShortIsReported(lines: seq<Line>, short: nat -> bool, j: nat)
    requires j < |lines| && short(j)
    ensures LastShortages(lines, short) != []
  {
    if j < |lines| - 1 {
      LastShortIsReported(lines[..|lines| - 1], short, j);
    }
  }

  ghost predicate OnlySuggests(w: World, k: nat)
  {
    k < |w.turns| && w.turns[k].node in {SuggestAlternative, End}
  }

  lemma {:induction false} SuggestingTurnEnds(w: World, run: seq<Action>, v: World, k: nat)
    requires OnlySuggests(w, k) && Executes(w, run, v)
    ensures OnlySuggests(v, k)
    decreases |run|
  {
    if run != [] {
      SuggestingTurnEnds(Apply(w, run[0]), run[1..], v, k);
    }
  }

  /**
   A turn whose stock check finds anything short comes to the suggestion of alternatives and ends
   there, whatever follows: it makes no offer and no invoice.  The same goes for the last check.
   */
  lemma StockoutEndsTurn(w: World, k: nat, env: Env, state: Option<nat>, draft: Option<nat>, run: seq<Action>, v: World)
    requires Enabled(w, Action.Complete(k, env, state, draft))
    requires || (w.turns[k].node == CheckAvailability && SomethingShort(w.turns[k].st.lines, env.short))
             || (w.turns[k].node == Finalize && exists j :: 0 <= j < |Orderable(w.turns[k].st.lines)| && env.short(j))
    requires Executes(Apply(w, Action.Complete(k, env, state, draft)), run, v)
    ensures OnlySuggests(v, k)
  {
    ShortIsReported(w.turns[k].st.lines, env.short);
    var lines := Orderable(w.turns[k].st.lines);
    if j: nat :| j < |lines| && env.short(j) {
      LastShortIsReported(lines, env.short, j);
    }
    SuggestingTurnEnds(Apply(w, Action.Complete(k, env, state, draft)), run, v, k);
  }

  /** No question, offer or invoice in a turn that knows of a stockout. */
  lemma NoOfferWithStockout(w: World, k: nat)
    requires Reachable(w) && k < |w.turns|
    ensures w.turns[k].node in {AskForFields, OfferConfirmation, GenerateInvoice} ==> w.turns[k].st.unavailable == []
  {
    var run :| Executes(START, run, w);
    RunKeepsSafe(START, run, w);
    assert GoodTurn(w.offers, w.turns[k]);
  }

  // ---------- turns end ----------

  /** How many nodes of turn `k` the run completes. */
  ghost function NodesRun(run: seq<Action>, k: nat): nat
    decreases |run|
  {
    if run == [] then 0 else NodesRun(run[1..], k) + if run[0].Complete? && run[0].turn == k then 1 else 0
  }

  ghost function Left(w: World, k: nat): nat
  {
    if k < |w.turns| then Rank(w.turns[k].node) else 12
  }

  lemma StepRunsDown(w: World, a: Action, k: nat)
    requires Enabled(w, a)
    ensures Left(Apply(w, a), k) + (if a.Complete? && a.turn == k then 1 else 0) <= Left(w, k)
  {
    if a.Complete? && a.turn == k {
      NodesRunDown(w.turns[k].node, After(w, w.turns[k], a.env, a.state, a.draft).st);
    }
  }

  /** In any run, whatever the other turns do, a turn completes at most twelve nodes, the tool loop counted as one. */
  lemma {:induction false} TurnsEnd(w: World, run: seq<Action>, v: World, k: nat)
    requires Executes(w, run, v)
    ensures NodesRun(run, k) + Left(v, k) <= Left(w, k) <= 12
    decreases |run|
  {
    if run != [] {
      StepRunsDown(w, run[0], k);
      TurnsEnd(Apply(w, run[0]), run[1..], v, k);
    }
  }

  // ---------- a go-ahead is enough ----------

  lemma {:induction false} RunsInTurn(w: World, first: seq<Action>, v: World, second: seq<Action>, u: World)
    requires Executes(w, first, v) && Executes(v, second, u)
    ensures Executes(w, first + second, u)
    decreases |first|
  {
    if first == [] {
      assert first + second == second;
    } else {
      assert (first + second)[0] == first[0] && (first + second)[1..] == first[1..] + second;
      RunsInTurn(Apply(w, first[0]), first[1..], v, second, u);
    }
  }

  lemma ReachesOn(w: World, run: seq<Action>, v: World)
    requires Reachable(w) && Executes(w, run, v)
    ensures Reachable(v)
  {
    var first :| Executes(START, first, w);
    RunsInTurn(START, first, w, run, v);
  }

  lemma StepReaches(w: World, a: Action)
    requires Reachable(w) && Enabled(w, a)
    ensures Reachable(Apply(w, a))
  {
    assert Executes(w, [a], Apply(w, a)) by {
      assert [a][1..] == [];
    }
    ReachesOn(w, [a], Apply(w, a));
  }

  /** Nothing new is said, and the stock covers everything. */
  const QUIET := Env(s => s, s => s, false, [], c => false, [], "", "", "", k => NoMatch, k => false, 0, true, true, [])

  lemma {:induction false} NothingShort(lines: seq<Line>)
    ensures Shortages(lines, QUIET.short) == [] && LastShortages(lines, QUIET.short) == []
  {
    if lines != [] {
      NothingShort(lines[..|lines| - 1]);
    }
  }

  /** Before the confirmation is resolved the flag is up; after it the go-ahead is. */
  ghost predicate GoesAhead(node: Node, st: OrderState)
  {
    st.unavailable == [] && if Rank(node) >= 9 then st.awaiting else st.proceed
  }

  lemma QuietEarly(node: Node, st: OrderState, request: Request)
    requires GoesAhead(node, st) && request.proceeds && 8 <= Rank(node) <= 11
    ensures var st' := Run(node, st, request, QUIET, None, None);
            GoesAhead(Next(node, st'), st') && 7 <= Rank(Next(node, st')) < Rank(node)
  {
  }

  lemma QuietStock(st: OrderState)
    ensures CheckStock(st, QUIET) == st.(unavailable := [])
  {
    NothingShort(st.lines);
  }

  lemma QuietFinal(st: OrderState)
    ensures FinalCheck(st, QUIET).unavailable == st.unavailable && FinalCheck(st, QUIET).proceed == st.proceed
  {
    NothingShort(Orderable(st.lines));
  }

  lemma QuietLate(node: Node, st: OrderState, request: Request)
    requires GoesAhead(node, st) && 4 <= Rank(node) <= 7
    ensures var st' := Run(node, st, request, QUIET, None, None);
            GoesAhead(Next(node, st'), st') && 3 <= Rank(Next(node, st')) < Rank(node)
  {
    match node {
      case CheckAvailability => QuietStock(st);
      case Finalize => QuietFinal(st);
      case _ =>
    }
  }

  lemma {:induction false} QuietRun(w: World, k: nat, session: nat, request: Request) returns (v: World)
    requires Reachable(w) && k < |w.turns| && w.turns[k].session == session && w.turns[k].request == request
    requires request.proceeds && GoesAhead(w.turns[k].node, w.turns[k].st) && 3 <= Rank(w.turns[k].node) <= 11
    ensures Reachable(v) && k < |v.turns| && v.turns[k].node == GenerateInvoice
    ensures v.turns[k].session == session && v.turns[k].request == request
    decreases Rank(w.turns[k].node)
  {
    var t := w.turns[k];
    if t.node == GenerateInvoice {
      v := w;
    } else {
      if Rank(t.node) >= 8 {
        QuietEarly(t.node, t.st, request);
      } else {
        QuietLate(t.node, t.st, request);
      }
      var a := Action.Complete(k, QUIET, None, None);
      StepReaches(w, a);
      v := QuietRun(Apply(w, a), k, session, request);
    }
  }

  /** Any snapshot that awaits confirmation can be turned into an invoice by a go-ahead alone, with or without a mandate. */
  lemma GoAheadIsEnough(w: World, j: nat, mandate: bool) returns (v: World, k: nat)
    requires Reachable(w) && j < |w.saved| && w.saved[j].st.awaiting
    ensures Reachable(v) && k < |v.turns| && v.turns[k].node == GenerateInvoice
    ensures v.turns[k].session == w.saved[j].session && v.turns[k].st.mandate == mandate
  {
    var session, request := w.saved[j].session, Request(true, mandate);
    var begun := Apply(w, Begin(session, request));
    StepReaches(w, Begin(session, request));
    k := |w.turns|;
    var load := Action.Complete(k, QUIET, Some(j), None);
    assert Enabled(begun, load);
    StepReaches(begun, load);
    v := QuietRun(Apply(begun, load), k, session, request);
    InvoiceOnlyAfterOffer(v, k);
  }

  // ---------- an offer can be made at all ----------

  /** A shopper names everything in one message, and the catalog has it. */
  const SHOPPING :=
    QUIET.(extracted := [Extracted("milk", Some("Amul"), Some(1))], name := "Asha", address := "Pune", phone := "98",
           answers := k => Match("1", "milk", "Amul"))

  const WANTED := Line("milk", Some("Amul"), Some(1), false, "", Unset)
  const FOUND := Line("milk", Some("Amul"), Some(1), true, "1", Confirmed)
  const ASKED := FRESH.(mandate := true)
  const PARSED := ASKED.(lines := [WANTED], name := "Asha", address := "Pune", phone := "98")

  lemma ShoppingIsParsed()
    ensures Parse(ASKED, SHOPPING) == PARSED
  {
    var e := Extracted("milk", Some("Amul"), Some(1));
    assert [e][..0] == [];
    assert Merge([], [e], SHOPPING.normalize) == [WANTED];
    assert [WANTED][..0] == [];
    assert Uncancelled([WANTED], SHOPPING.cancelled) == [WANTED];
    assert !Dominated([WANTED], 0, SHOPPING.normalize);
    assert Survivors([WANTED], 0, SHOPPING.normalize) == [];
    assert Survivors([WANTED], 1, SHOPPING.normalize) == [WANTED];
    assert DefaultQtys([WANTED]) == [WANTED];
  }

  lemma ShoppingIsFound()
    ensures ResolvedLines([WANTED], SHOPPING.answers) == [FOUND]
    ensures Orderable([FOUND]) == [FOUND] && Shortages([FOUND], SHOPPING.short) == []
  {
    assert [FOUND][..0] == [];
    assert Orderable([]) == [] && Shortages([], SHOPPING.short) == [];
  }

  /** The only turn of the world is at `node` with this state. */
  ghost predicate ShoppingAt(w: World, node: Node, st: OrderState)
  {
    && Reachable(w) && |w.turns| == 1 && w.offers == []
    && w.turns[0] == Turn(0, Request(false, true), node, st, false, 0, w.turns[0].path)
  }

  lemma ShoppingStep(w: World, node: Node, st: OrderState, node': Node, st': OrderState) returns (v: World)
    requires ShoppingAt(w, node, st) && node !in {End, LoadSession, GenerateInvoice, OfferConfirmation}
    requires st' == Run(node, st, Request(false, true), SHOPPING, None, None) && node' == Next(node, st')
    ensures ShoppingAt(v, node', st')
  {
    var a := Action.Complete(0, SHOPPING, None, None);
    StepReaches(w, a);
    v := Apply(w, a);
  }

  lemma ShoppingLoads() returns (w: World)
    ensures ShoppingAt(w, OffTopicGuard, ASKED)
  {
    assert Executes(START, [], START);
    var begin := Begin(0, Request(false, true));
    StepReaches(START, begin);
    var begun := Apply(START, begin);
    assert begun.turns == [Turn(0, Request(false, true), LoadSession, FRESH, false, 0, [])];
    var load := Action.Complete(0, SHOPPING, None, None);
    StepReaches(begun, load);
    w := Apply(begun, load);
  }

  const CHOSEN := PARSED.(lines := [FOUND])

  lemma ShoppingChecks()
    ensures CheckStock(CHOSEN, SHOPPING) == CHOSEN && CheckFields(CHOSEN) == CHOSEN.(status := Validated)
    ensures MissingRoute(CHOSEN.(status := Validated)) == OfferConfirmation
  {
    ShoppingIsFound();
  }

  lemma ShoppingParses() returns (w: World)
    ensures ShoppingAt(w, ResolveConfirmation, PARSED)
  {
    ShoppingIsParsed();
    w := ShoppingLoads();
    w := ShoppingStep(w, OffTopicGuard, ASKED, ParseIntent, ASKED);
    w := ShoppingStep(w, ParseIntent, ASKED, ResolveConfirmation, PARSED);
  }

  lemma ShoppingFinds() returns (w: World)
    ensures ShoppingAt(w, React, CHOSEN)
  {
    ShoppingIsFound();
    w := ShoppingParses();
    w := ShoppingStep(w, ResolveConfirmation, PARSED, ResolveCatalog, PARSED);
    w := ShoppingStep(w, ResolveCatalog, PARSED, React, CHOSEN);
  }

  lemma ShoppingLooksUp() returns (w: World)
    ensures ShoppingAt(w, CheckAvailability, CHOSEN)
  {
    w := ShoppingFinds();
    w := ShoppingStep(w, React, CHOSEN, CheckAvailability, CHOSEN);
  }

  lemma ShoppingIsInStock() returns (w: World)
    ensures ShoppingAt(w, CheckMissing, CHOSEN)
  {
    ShoppingChecks();
    w := ShoppingLooksUp();
    w := ShoppingStep(w, CheckAvailability, CHOSEN, CheckMissing, CHOSEN);
  }

  lemma ShoppingIsReady() returns (w: World)
    ensures ShoppingAt(w, OfferConfirmation, CHOSEN.(status := Validated))
  {
    ShoppingChecks();
    w := ShoppingIsInStock();
    w := ShoppingStep(w, CheckMissing, CHOSEN, OfferConfirmation, CHOSEN.(status := Validated));
  }

  lemma OfferReachable() returns (w: World, j: nat)
    ensures Reachable(w) && j < |w.saved| && w.saved[j].st.awaiting
  {
    var ready := ShoppingIsReady();
    ShoppingIsFound();
    var a := Action.Complete(0, SHOPPING, None, None);
    StepReaches(ready, a);
    w := Apply(ready, a);
    j := |ready.saved|;
  }

  /** The order behind an invoice may carry no verified mandate, although the offer it answers did. */
  lemma InvoiceWithoutMandate() returns (w: World, k: nat)
    ensures Reachable(w) && k < |w.turns| && w.turns[k].node == GenerateInvoice && !w.turns[k].st.mandate
  {
    var offered, j := OfferReachable();
    w, k := GoAheadIsEnough(offered, j, false);
  }

  // ---------- an invoice is sent out ----------

  /** Turn `k` completes its next node, on what the outside says at that time. */
  ghost predicate Completes(w: World, k: nat, env: Env, v: World)
  {
    Enabled(w, Action.Complete(k, env, None, None)) && v == Apply(w, Action.Complete(k, env, None, None))
  }

  /** A turn that makes its invoice makes it for exactly the lines of its cart, and goes on to send it out. */
  lemma InvoiceIsMade(w: World, k: nat, env: Env, made: World)
    requires Completes(w, k, env, made) && w.turns[k].node == GenerateInvoice
    ensures |made.turns| == |w.turns| && made.turns[k].node == Dispatch && made.turns[k].st.invoice.Some?
    ensures made.turns[k].st.invoice.value.lines == w.turns[k].st.lines
    ensures made.orders == w.orders + {made.turns[k].st.invoice.value.orderId} && made.dispatched == w.dispatched
  {
  }

  /** Its id is the one thing the next node sends out, and the turn ends with the outcome. */
  lemma InvoiceIsSent(w: World, k: nat, env1: Env, made: World, env2: Env, sent: World, env3: Env, settled: World)
    requires Completes(w, k, env1, made) && w.turns[k].node == GenerateInvoice
    requires Completes(made, k, env2, sent) && Completes(sent, k, env3, settled)
    ensures made.turns[k].st.invoice.Some? && sent.dispatched == w.dispatched + [made.turns[k].st.invoice.value.orderId]
    ensures settled.turns[k].node == End && settled.dispatched == sent.dispatched
    ensures settled.turns[k].st.status == Invoiced <==> env3.reserved
    ensures settled.turns[k].st.invoice == if env3.reserved then made.turns[k].st.invoice else None
  {
    InvoiceIsMade(w, k, env1, made);
    assert sent.turns[k].node == ResolveOutcome;
  }

  // ---------- every invoice id is dispatched at most once ----------

  ghost predicate InHand(t: Turn)
  {
    t.node == Dispatch && t.st.invoice.Some?
  }

  ghost predicate DispatchesSafe(w: World)
  {
    && (forall j, k :: 0 <= j < k < |w.dispatched| ==> w.dispatched[j] != w.dispatched[k])
    && (forall k :: 0 <= k < |w.dispatched| ==> w.dispatched[k] in w.orders)
    && (forall k :: 0 <= k < |w.turns| && InHand(w.turns[k]) ==>
          w.turns[k].st.invoice.value.orderId in w.orders && w.turns[k].st.invoice.value.orderId !in w.dispatched)
    && forall j, k :: 0 <= j < k < |w.turns| && InHand(w.turns[j]) && InHand(w.turns[k]) ==>
          w.turns[j].st.invoice.value.orderId != w.turns[k].st.invoice.value.orderId
  }

  /** Some turn at hand gave its id away, and is no longer at the dispatch. */
  lemma DispatchKeeps(w: World, k: nat, turns: seq<Turn>)
    requires DispatchesSafe(w) && k < |w.turns| && |turns| == |w.turns| && InHand(w.turns[k]) && !InHand(turns[k])
    requires forall j :: 0 <= j < |turns| && j != k ==> turns[j] == w.turns[j]
    ensures DispatchesSafe(w.(turns := turns, dispatched := w.dispatched + [w.turns[k].st.invoice.value.orderId]))
  {
  }

  lemma InsertKeeps(w: World, k: nat, turns: seq<Turn>, id: nat)
    requires DispatchesSafe(w) && k < |w.turns| && |turns| == |w.turns| && id !in w.orders
    requires InHand(turns[k]) ==> turns[k].st.invoice.value.orderId == id
    requires forall j :: 0 <= j < |turns| && j != k ==> turns[j] == w.turns[j]
    ensures DispatchesSafe(w.(turns := turns, orders := w.orders + {id}))
  {
  }

  lemma QuietTurnKeeps(w: World, k: nat, turns: seq<Turn>)
    requires DispatchesSafe(w) && k < |w.turns| && |turns| == |w.turns| && !InHand(turns[k])
    requires forall j :: 0 <= j < |turns| && j != k ==> turns[j] == w.turns[j]
    ensures DispatchesSafe(w.(turns := turns))
  {
  }

  lemma OnlyTablesMatter(w: World, v: World)
    requires DispatchesSafe(w) && v.turns == w.turns && v.orders == w.orders && v.dispatched == w.dispatched
    ensures DispatchesSafe(v)
  {
  }

  lemma EffectKeepsDispatches(w: World, k: nat, env: Env, turns: seq<Turn>)
    requires DispatchesSafe(w) && k < |w.turns| && |turns| == |w.turns| && Inserts(w, w.turns[k], env)
    requires forall j :: 0 <= j < |turns| && j != k ==> turns[j] == w.turns[j]
    requires InHand(turns[k]) ==> w.turns[k].node == GenerateInvoice && turns[k].st.invoice.value.orderId == OrderId(w.turns[k].st, env)
    ensures DispatchesSafe(w.(turns := turns, orders := NewOrders(w, w.turns[k], env), dispatched := NewDispatched(w, w.turns[k])))
  {
    if w.turns[k].node == GenerateInvoice {
      InsertKeeps(w, k, turns, OrderId(w.turns[k].st, env));
    } else if InHand(w.turns[k]) {
      DispatchKeeps(w, k, turns);
    } else {
      QuietTurnKeeps(w, k, turns);
    }
  }

  lemma StepKeepsDispatches(w: World, a: Action)
    requires DispatchesSafe(w) && Enabled(w, a)
    ensures DispatchesSafe(Apply(w, a))
  {
    match a {
      case Begin(session, request) => BeginKeeps(w, Turn(session, request, LoadSession, FRESH, false, 0, []));
      case Complete(k, env, state, draft) =>
        var after := After(w, w.turns[k], env, state, draft);
        EffectKeepsDispatches(w, k, env, w.turns[k := after]);
        OnlyTablesMatter(w.(turns := w.turns[k := after], orders := NewOrders(w, w.turns[k], env),
                            dispatched := NewDispatched(w, w.turns[k])), Apply(w, a));
      case DieUnsaved(k, env) => EffectKeepsDispatches(w, k, env, Ended(w, k));
      case Die(k) => QuietTurnKeeps(w, k, Ended(w, k));
    }
  }

  lemma BeginKeeps(w: World, t: Turn)
    requires DispatchesSafe(w) && !InHand(t)
    ensures DispatchesSafe(w.(turns := w.turns + [t]))
  {
  }

  lemma {:induction false} RunKeepsDispatches(w: World, run: seq<Action>, v: World)
    requires DispatchesSafe(w) && Executes(w, run, v)
    ensures DispatchesSafe(v)
    decreases |run|
  {
    if run != [] {
      StepKeepsDispatches(w, run[0]);
      RunKeepsDispatches(Apply(w, run[0]), run[1..], v);
    }
  }

  /** Over all turns of all sessions no invoice id is sent out twice, and none without its order row. */
  lemma DispatchedAtMostOnce(w: World)
    requires Reachable(w)
    ensures forall j, k :: 0 <= j < k < |w.dispatched| ==> w.dispatched[j] != w.dispatched[k]
    ensures forall k :: 0 <= k < |w.dispatched| ==> w.dispatched[k] in w.orders
  {
    var run :| Executes(START, run, w);
    RunKeepsDispatches(START, run, w);
  }
}
