/**
 One turn of the order agent: the state a session carries, what each node of the graph makes of it,
 and the edges between the nodes.  Whatever comes from outside a node (the language model, the
 catalog, the stock, fresh ids, the replies of the other services) is a field of `Env`.
 */
module Conversation {
  import opened Outcomes
  import opened Similarity
  import opened CartFilter

  datatype Field = Substitute | ProductAndBrand | Quantity | Address | Phone | CustomerName | SignedMandate

  datatype Progress = Draft | AwaitingFields | AwaitingConfirmation | Validated | Invoiced

  datatype Invoice = Invoice(orderId: nat, lines: seq<Line>)

  datatype Unavailable = Unavailable(itemId: string, name: string, brand: string)

  datatype OrderState = OrderState(
    lines: seq<Line>,
    name: string, address: string, phone: string,
    missing: seq<Field>,
    mandate: bool,
    offTopic: bool,
    awaiting: bool,
    proceed: bool,
    unavailable: seq<Unavailable>,
    status: Progress,
    reservationId: Option<nat>,
    invoice: Option<Invoice>)

  /** What a turn is called with; `proceeds` says whether the message holds one of the proceed phrases. */
  datatype Request = Request(proceeds: bool, mandate: bool)

  datatype Extracted = Extracted(name: string, brand: Option<string>, qty: Option<int>)

  /** A brand and product picked from the message in place of a line that ran out. */
  datatype Swap = Swap(brand: string, product: string, qty: Option<int>)

  type CatalogId = s: string | s != "" witness "0"

  datatype Answer = NoMatch | Match(id: CatalogId, name: string, brand: string) | Undecided

  datatype Env = Env(
    normalize: string -> string,
    lower: string -> string,
    offTopic: bool,
    extracted: seq<Extracted>,
    cancelled: Line -> bool,
    swaps: seq<Swap>,
    name: string, address: string, phone: string,
    answers: nat -> Answer,
    short: nat -> bool,
    freshId: nat,
    reserved: bool, paid: bool, reported: seq<Unavailable>)

  datatype Node =
    | LoadSession | OffTopicGuard | ParseIntent | ResolveConfirmation | ResolveCatalog | React | CheckAvailability
    | SuggestAlternative | CheckMissing | AskForFields | OfferConfirmation | Finalize | GenerateInvoice | Dispatch
    | ResolveOutcome | End

  predicate Given(s: Option<string>)
  {
    s.Some? && s.value != ""
  }

  function Or(s: string, otherwise: string): string
  {
    if s != "" then s else otherwise
  }

  // ---------- load_session ----------

  const FRESH := OrderState([], "", "", "", [], false, false, false, false, [], Draft, None, None)

  function WithDraft(st: OrderState, draft: OrderState): OrderState
  {
    st.(lines := if st.lines == [] then draft.lines else st.lines,
        name := Or(st.name, draft.name), address := Or(st.address, draft.address), phone := Or(st.phone, draft.phone),
        missing := if st.missing == [] then draft.missing else st.missing)
  }

  /** State and draft expire separately: either may be gone. */
  function Load(state: Option<OrderState>, draft: Option<OrderState>, request: Request): OrderState
  {
    var persisted := if state.Some? then state.value else FRESH;
    var merged := if draft.Some? then WithDraft(persisted, draft.value) else persisted;
    merged.(mandate := request.mandate, proceed := false, unavailable := [],
            status := if state.None? && draft.Some? then draft.value.status else persisted.status)
  }

  // ---------- parse_intent ----------

  function FirstSimilar(lines: seq<Line>, name: string, normalize: string -> string, from: nat): (k: nat)
    requires from <= |lines|
    ensures from <= k <= |lines|
    ensures forall j :: from <= j < k ==> !Similar(normalize(lines[j].name), normalize(name))
    ensures k < |lines| ==> Similar(normalize(lines[k].name), normalize(name))
    decreases |lines| - from
  {
    if from == |lines| || Similar(normalize(lines[from].name), normalize(name)) then from
    else FirstSimilar(lines, name, normalize, from + 1)
  }

  function Updated(line: Line, e: Extracted): Line
  {
    var told := line.(name := Or(e.name, line.name),
                      brand := if Given(e.brand) then e.brand else line.brand,
                      qty := if e.qty.Some? then e.qty else line.qty);
    if e.name != "" || Given(e.brand) || e.qty.Some? then told.(resolved := false, itemId := "", status := Unset) else told
  }

  function Merge(lines: seq<Line>, extracted: seq<Extracted>, normalize: string -> string): seq<Line>
    decreases |extracted|
  {
    if extracted == [] then lines
    else
      var before := Merge(lines, extracted[..|extracted| - 1], normalize);
      var e := extracted[|extracted| - 1];
      var k := FirstSimilar(before, e.name, normalize, 0);
      if k < |before| then before[k := Updated(before[k], e)]
      else before + [Line(e.name, e.brand, e.qty, false, "", Unset)]
  }

  function Uncancelled(lines: seq<Line>, cancelled: Line -> bool): seq<Line>
  {
    if lines == [] then []
    else
      var n := |lines| - 1;
      Uncancelled(lines[..n], cancelled) + if cancelled(lines[n]) then [] else [lines[n]]
  }

  /** The line waits for a substitute, and `product`, if given, is similar to what it named. */
  predicate Awaits(line: Line, product: Option<string>, normalize: string -> string)
  {
    line.status == StockoutPending && (product.Some? ==> Similar(normalize(line.name), normalize(product.value)))
  }

  function FirstPending(lines: seq<Line>, product: Option<string>, normalize: string -> string, from: nat): (k: nat)
    requires from <= |lines|
    ensures from <= k <= |lines|
    ensures forall j :: from <= j < k ==> !Awaits(lines[j], product, normalize)
    ensures k < |lines| ==> Awaits(lines[k], product, normalize)
    decreases |lines| - from
  {
    if from == |lines| then from
    else if Awaits(lines[from], product, normalize) then from
    else FirstPending(lines, product, normalize, from + 1)
  }

  /** A similar waiting line if there is one, else the first waiting line. */
  function SwapTarget(lines: seq<Line>, product: string, normalize: string -> string): (k: nat)
    ensures k <= |lines|
    ensures k == |lines| <==> forall j :: 0 <= j < |lines| ==> lines[j].status != StockoutPending
    ensures k < |lines| ==> lines[k].status == StockoutPending
    ensures (exists j :: 0 <= j < |lines| && Awaits(lines[j], Some(product), normalize)) ==>
              k < |lines| && Awaits(lines[k], Some(product), normalize)
              && forall j :: 0 <= j < k ==> !Awaits(lines[j], Some(product), normalize)
  {
    var k := FirstPending(lines, Some(product), normalize, 0);
    if k < |lines| then k else FirstPending(lines, None, normalize, 0)
  }

  function Swapped(lines: seq<Line>, swaps: seq<Swap>, normalize: string -> string): seq<Line>
    decreases |swaps|
  {
    if swaps == [] then lines
    else
      var before := Swapped(lines, swaps[..|swaps| - 1], normalize);
      var swap := swaps[|swaps| - 1];
      var k := SwapTarget(before, swap.product, normalize);
      if k == |before| then before
      else
        var qty := if swap.qty.Some? then swap.qty else before[k].qty;
        before[k := Line(swap.product, Some(swap.brand), qty, false, "", Unset)]
  }

  function DefaultQty(line: Line): Line
  {
    if line.qty.None? && line.status != NotFound && line.name != ""
       && (Given(line.brand) || line.itemId != "" || line.resolved)
    then line.(qty := Some(1))
    else line
  }

  function DefaultQtys(lines: seq<Line>): (r: seq<Line>)
    ensures |r| == |lines| && forall k :: 0 <= k < |lines| ==> r[k] == DefaultQty(lines[k])
  {
    seq(|lines|, k requires 0 <= k < |lines| => DefaultQty(lines[k]))
  }

  ghost function ParsedLines(lines: seq<Line>, env: Env): seq<Line>
  {
    var wanted := Uncancelled(Merge(lines, env.extracted, env.normalize), env.cancelled);
    DefaultQtys(Swapped(Survivors(wanted, |wanted|, env.normalize), env.swaps, env.normalize))
  }

  /** `env.name` and its companions are what the model read, or else what the customer's profile holds. */
  ghost function Parse(st: OrderState, env: Env): OrderState
  {
    st.(lines := ParsedLines(st.lines, env),
        name := if env.name != "" then env.name else st.name,
        address := if env.address != "" then env.address else st.address,
        phone := if env.phone != "" then env.phone else st.phone)
  }

  // ---------- the confirmation flags ----------

  function Confirm(st: OrderState, request: Request): OrderState
  {
    if !st.awaiting then st else st.(awaiting := false, proceed := request.proceeds)
  }

  function Offer(st: OrderState): OrderState
  {
    if Orderable(st.lines) == [] then st.(status := AwaitingFields)
    else st.(status := AwaitingConfirmation, awaiting := true, proceed := false)
  }

  // ---------- catalog and stock ----------

  function Resolved(line: Line, answer: Answer): Line
  {
    if line.status == StockoutPending then line
    else if line.name == "" then line.(status := MissingName)
    else
      match answer
      case Match(id, name, brand) => Line(name, Some(brand), line.qty, true, id, Confirmed)
      case NoMatch => line.(resolved := false, status := NotFound)
      case Undecided => line.(resolved := false, status := Ambiguous)
  }

  function ResolvedLines(lines: seq<Line>, answers: nat -> Answer): (r: seq<Line>)
    ensures |r| == |lines| && forall k :: 0 <= k < |lines| ==> r[k] == DefaultQty(Resolved(lines[k], answers(k)))
  {
    seq(|lines|, k requires 0 <= k < |lines| => DefaultQty(Resolved(lines[k], answers(k))))
  }

  predicate IsOrderable(line: Line)
  {
    line.resolved && line.itemId != "" && line.qty.Some? && line.status != StockoutPending
  }

  /** The lines that can be reserved and invoiced. */
  function Orderable(lines: seq<Line>): (r: seq<Line>)
    ensures forall k :: 0 <= k < |r| ==> IsOrderable(r[k]) && r[k] in lines
    ensures r == [] <==> forall k :: 0 <= k < |lines| ==> !IsOrderable(lines[k])
  {
    if lines == [] then []
    else
      var n := |lines| - 1;
      Orderable(lines[..n]) + if IsOrderable(lines[n]) then [lines[n]] else []
  }

  function UnavailableOf(line: Line): Unavailable
  {
    Unavailable(line.itemId, line.name, if line.brand.Some? then line.brand.value else "")
  }

  predicate RanOut(line: Line, short: bool)
  {
    IsOrderable(line) && line.qty.value != 0 && short
  }

  /** The orderable lines with a quantity that the stock does not cover. */
  function Shortages(lines: seq<Line>, short: nat -> bool): seq<Unavailable>
  {
    if lines == [] then []
    else
      var n := |lines| - 1;
      Shortages(lines[..n], short)
      + if RanOut(lines[n], short(n)) then [UnavailableOf(lines[n])] else []
  }

  function CheckStock(st: OrderState, env: Env): OrderState
  {
    var missing := Shortages(st.lines, env.short);
    if missing != [] then st.(unavailable := missing, status := AwaitingFields) else st.(unavailable := [])
  }

  predicate Hits(line: Line, u: Unavailable, env: Env)
  {
    || (u.itemId != "" && line.itemId == u.itemId)
    || (u.name != "" && Similar(env.normalize(line.name), env.normalize(u.name))
        && (u.brand == ""
            || env.lower(if line.brand.Some? then line.brand.value else "") == env.lower(u.brand)))
  }

  function TakenOut(line: Line): Line
  {
    line.(resolved := false, itemId := "", status := StockoutPending)
  }

  function MarkPending(lines: seq<Line>, u: Unavailable, env: Env): (r: seq<Line>)
    ensures |r| == |lines|
    ensures forall k :: 0 <= k < |lines| ==>
      r[k] == if Hits(lines[k], u, env) then TakenOut(lines[k]) else lines[k]
  {
    seq(|lines|, k requires 0 <= k < |lines| =>
      if Hits(lines[k], u, env) then TakenOut(lines[k]) else lines[k])
  }

  function MarkAllPending(lines: seq<Line>, us: seq<Unavailable>, env: Env): seq<Line>
    decreases |us|
  {
    if us == [] then lines else MarkPending(MarkAllPending(lines, us[..|us| - 1], env), us[|us| - 1], env)
  }

  function Suggest(st: OrderState, env: Env): OrderState
  {
    if st.unavailable == [] then st
    else st.(lines := MarkAllPending(st.lines, st.unavailable, env), unavailable := [], status := AwaitingFields)
  }

  // ---------- missing fields ----------

  predicate AnyPending(lines: seq<Line>)
  {
    exists k :: 0 <= k < |lines| && lines[k].status == StockoutPending
  }

  predicate NeedsProduct(lines: seq<Line>)
  {
    || (forall k :: 0 <= k < |lines| ==> lines[k].status == NotFound)
    || exists k :: 0 <= k < |lines| && lines[k].status != NotFound && !(lines[k].name != "" && Given(lines[k].brand))
  }

  predicate NeedsQty(lines: seq<Line>)
  {
    exists k :: 0 <= k < |lines| && lines[k].status != NotFound && lines[k].qty.None?
  }

  function MissingInCart(lines: seq<Line>): seq<Field>
  {
    if AnyPending(lines) then [Substitute]
    else if lines == [] then [ProductAndBrand, Quantity]
    else if Orderable(lines) != [] then
      if exists k :: 0 <= k < |lines| && lines[k].resolved && lines[k].qty.None? then [Quantity] else []
    else (if NeedsProduct(lines) then [ProductAndBrand] else []) + (if NeedsQty(lines) then [Quantity] else [])
  }

  function MissingFields(st: OrderState): seq<Field>
  {
    MissingInCart(st.lines)
    + (if st.address == "" then [Address] else [])
    + (if st.phone == "" then [Phone] else [])
    + (if st.name == "" then [CustomerName] else [])
    + (if !st.mandate then [SignedMandate] else [])
  }

  predicate Blocking(lines: seq<Line>)
  {
    exists k :: 0 <= k < |lines| && !lines[k].resolved && lines[k].status !in {NotFound, StockoutPending}
                && !(lines[k].status == Ambiguous && Orderable(lines) != [])
  }

  function CheckFields(st: OrderState): OrderState
  {
    var missing := MissingFields(st);
    if missing != [] || Blocking(st.lines) then st.(missing := missing, status := AwaitingFields)
    else st.(missing := [], status := Validated, lines := if Orderable(st.lines) != [] then Orderable(st.lines) else st.lines)
  }

  // ---------- invoicing ----------

  /** The last check before the invoice, on the orderable lines only. */
  function FinalCheck(st: OrderState, env: Env): OrderState
  {
    var lines := Orderable(st.lines);
    if lines == [] then st.(status := AwaitingFields, missing := [ProductAndBrand])
    else
      var id := if st.reservationId.Some? then st.reservationId else Some(env.freshId);
      var missing := LastShortages(lines, env.short);
      if missing != [] then st.(status := AwaitingFields, unavailable := missing, reservationId := id)
      else st.(lines := lines, status := Validated, reservationId := id)
  }

  function LastShortages(lines: seq<Line>, short: nat -> bool): seq<Unavailable>
  {
    if lines == [] then []
    else
      var n := |lines| - 1;
      LastShortages(lines[..n], short) + if short(n) then [UnavailableOf(lines[n])] else []
  }

  /** The primary key the order row is inserted under. */
  function OrderId(st: OrderState, env: Env): nat
  {
    if st.reservationId.Some? then st.reservationId.value else env.freshId
  }

  function WithInvoice(st: OrderState, env: Env): OrderState
  {
    st.(invoice := Some(Invoice(OrderId(st, env), st.lines)), status := Validated, awaiting := false, proceed := false)
  }

  function ResolveReplies(st: OrderState, env: Env): OrderState
  {
    var id := if st.invoice.Some? then Some(st.invoice.value.orderId) else st.reservationId;
    if env.reserved then
      st.(status := Invoiced, awaiting := false, proceed := false, reservationId := id,
          unavailable := if env.paid then [] else st.unavailable)
    else
      st.(status := AwaitingFields, awaiting := false, proceed := false, reservationId := id,
          unavailable := env.reported, invoice := None)
  }

  // ---------- the graph ----------

  /** What the node makes of the state; the session stores are read by `LoadSession` only. */
  ghost function Run(node: Node, st: OrderState, request: Request, env: Env,
                     state: Option<OrderState>, draft: Option<OrderState>): OrderState
  {
    match node
    case LoadSession => Load(state, draft, request)
    case OffTopicGuard => if env.offTopic then st.(offTopic := true, status := AwaitingFields) else st.(offTopic := false)
    case ParseIntent => Parse(st, env)
    case ResolveConfirmation => Confirm(st, request)
    case ResolveCatalog => st.(lines := ResolvedLines(st.lines, env.answers))
    case React => st
    case CheckAvailability => CheckStock(st, env)
    case SuggestAlternative => Suggest(st, env)
    case CheckMissing => CheckFields(st)
    case AskForFields => st.(status := AwaitingFields)
    case OfferConfirmation => Offer(st)
    case Finalize => FinalCheck(st, env)
    case GenerateInvoice => WithInvoice(st, env)
    case Dispatch => st
    case ResolveOutcome => ResolveReplies(st, env)
    case End => st
  }

  predicate RouteBlocked(lines: seq<Line>)
  {
    exists k :: 0 <= k < |lines| && !lines[k].resolved && lines[k].status !in {NotFound, Ambiguous}
  }

  predicate AnyResolved(lines: seq<Line>)
  {
    exists k :: 0 <= k < |lines| && lines[k].resolved
  }

  function MissingRoute(st: OrderState): Node
  {
    if st.proceed then Finalize
    else if st.missing != [] then AskForFields
    else if AnyPending(st.lines) then AskForFields
    else if RouteBlocked(st.lines) then AskForFields
    else if Orderable(st.lines) != [] && !st.awaiting then OfferConfirmation
    else if !AnyResolved(st.lines) then AskForFields
    else Finalize
  }

  /** The edges, given the state the node left. */
  function Next(node: Node, st: OrderState): Node
  {
    match node
    case LoadSession => OffTopicGuard
    case OffTopicGuard => if st.offTopic then End else ParseIntent
    case ParseIntent => ResolveConfirmation
    case ResolveConfirmation => ResolveCatalog
    case ResolveCatalog => React
    case React => if st.unavailable != [] then SuggestAlternative else CheckAvailability
    case CheckAvailability => if st.unavailable != [] then SuggestAlternative else CheckMissing
    case SuggestAlternative => End
    case CheckMissing => MissingRoute(st)
    case AskForFields => End
    case OfferConfirmation => End
    case Finalize => if st.unavailable != [] then SuggestAlternative else GenerateInvoice
    case GenerateInvoice => Dispatch
    case Dispatch => ResolveOutcome
    case ResolveOutcome => End
    case End => End
  }

  /** How many nodes at most are still to come. */
  function Rank(node: Node): nat
  {
    match node
    case LoadSession => 12
    case OffTopicGuard => 11
    case ParseIntent => 10
    case ResolveConfirmation => 9
    case ResolveCatalog => 8
    case React => 7
    case CheckAvailability => 6
    case CheckMissing => 5
    case Finalize => 4
    case GenerateInvoice => 3
    case Dispatch => 2
    case ResolveOutcome => 1
    case SuggestAlternative => 1
    case AskForFields => 1
    case OfferConfirmation => 1
    case End => 0
  }

  // ---------- what the nodes keep ----------

  /** A resolved line names its catalog item. */
  predicate SoundLine(line: Line)
  {
    line.resolved ==> line.itemId != ""
  }

  predicate Sound(lines: seq<Line>)
  {
    forall k :: 0 <= k < |lines| ==> SoundLine(lines[k])
  }

  /** After the catalog a resolved line is not reported missing, and has a quantity unless it has no name. */
  predicate LookedUp(line: Line)
  {
    && SoundLine(line)
    && (line.resolved && line.status != StockoutPending ==>
          line.status != NotFound && (line.qty.Some? || line.name == ""))
  }

  predicate AllLookedUp(lines: seq<Line>)
  {
    forall k :: 0 <= k < |lines| ==> LookedUp(lines[k])
  }

  lemma {:induction false} MergeSound(lines: seq<Line>, extracted: seq<Extracted>, normalize: string -> string)
    requires Sound(lines)
    ensures Sound(Merge(lines, extracted, normalize))
    decreases |extracted|
  {
    if extracted != [] {
      MergeSound(lines, extracted[..|extracted| - 1], normalize);
    }
  }

  lemma {:induction false} UncancelledSound(lines: seq<Line>, cancelled: Line -> bool)
    requires Sound(lines)
    ensures Sound(Uncancelled(lines, cancelled))
  {
    if lines != [] {
      UncancelledSound(lines[..|lines| - 1], cancelled);
    }
  }

  lemma {:induction false} SurvivorsSound(lines: seq<Line>, n: nat, normalize: string -> string)
    requires Sound(lines) && n <= |lines|
    ensures Sound(Survivors(lines, n, normalize))
  {
    if n > 0 {
      SurvivorsSound(lines, n - 1, normalize);
    }
  }

  lemma {:induction false} SwappedSound(lines: seq<Line>, swaps: seq<Swap>, normalize: string -> string)
    requires Sound(lines)
    ensures Sound(Swapped(lines, swaps, normalize))
    decreases |swaps|
  {
    if swaps != [] {
      SwappedSound(lines, swaps[..|swaps| - 1], normalize);
    }
  }

  lemma ParsedSound(lines: seq<Line>, env: Env)
    requires Sound(lines)
    ensures Sound(ParsedLines(lines, env))
  {
    var merged := Merge(lines, env.extracted, env.normalize);
    var wanted := Uncancelled(merged, env.cancelled);
    MergeSound(lines, env.extracted, env.normalize);
    UncancelledSound(merged, env.cancelled);
    SurvivorsSound(wanted, |wanted|, env.normalize);
    SwappedSound(Survivors(wanted, |wanted|, env.normalize), env.swaps, env.normalize);
  }

  lemma CatalogLooksUp(lines: seq<Line>, answers: nat -> Answer)
    requires Sound(lines)
    ensures AllLookedUp(ResolvedLines(lines, answers))
  {
    forall k | 0 <= k < |lines| ensures LookedUp(ResolvedLines(lines, answers)[k]) {
      assert SoundLine(lines[k]);
    }
  }

  lemma {:induction false} MarkedSound(lines: seq<Line>, us: seq<Unavailable>, env: Env)
    requires Sound(lines)
    ensures Sound(MarkAllPending(lines, us, env))
    decreases |us|
  {
    if us != [] {
      MarkedSound(lines, us[..|us| - 1], env);
    }
  }

  /** A resolved line that cannot be ordered has no name, and its product is asked for. */
  lemma NamelessIsAskedFor(lines: seq<Line>)
    requires AllLookedUp(lines) && AnyResolved(lines) && Orderable(lines) == [] && !AnyPending(lines)
    ensures NeedsProduct(lines)
  {
    var k :| 0 <= k < |lines| && lines[k].resolved;
    assert LookedUp(lines[k]) && !IsOrderable(lines[k]);
  }

  lemma ResolvedOrAsked(lines: seq<Line>)
    requires AllLookedUp(lines) && AnyResolved(lines) && MissingInCart(lines) == []
    ensures Orderable(lines) != []
  {
    if Orderable(lines) == [] && !AnyPending(lines) {
      NamelessIsAskedFor(lines);
    }
  }

  /** Without a go-ahead no cart gets past the field check: it is asked about, or offered. */
  lemma NoFallThrough(st: OrderState)
    requires AllLookedUp(st.lines) && !st.proceed && !st.awaiting
    ensures MissingRoute(CheckFields(st)) in {AskForFields, OfferConfirmation}
  {
    if MissingFields(st) == [] {
      var cart := MissingInCart(st.lines);
      assert cart == [];
      if AnyResolved(st.lines) {
        ResolvedOrAsked(st.lines);
      }
    }
  }

  ghost predicate Filled(st: OrderState)
  {
    st.name != "" && st.address != "" && st.phone != ""
  }

  /** Everything an invoice needs: the three fields, a verified mandate and a line to reserve, none waiting for a substitute. */
  ghost predicate Complete(st: OrderState)
  {
    Filled(st) && st.mandate && Orderable(st.lines) != [] && !AnyPending(st.lines)
  }

  /** An offer is made only when the order is complete. */
  lemma OfferedIsComplete(st: OrderState)
    requires MissingRoute(CheckFields(st)) == OfferConfirmation
    ensures Complete(CheckFields(st))
  {
  }

  /** Resolved lines have quantities, and unresolved ones are those the catalog did not have or could not decide. */
  predicate NothingOpen(lines: seq<Line>)
  {
    forall k :: 0 <= k < |lines| ==>
      if lines[k].resolved then lines[k].qty.Some? else lines[k].status in {NotFound, Ambiguous}
  }

  lemma OfferNeeds(st: OrderState)
    requires !st.proceed && !st.awaiting && MissingRoute(CheckFields(st)) == OfferConfirmation
    ensures Complete(st) && NothingOpen(st.lines)
  {
    AskedExactlyWhen(st);
    assert Orderable(st.lines) != [] || CheckFields(st).lines == st.lines;
    BlockedAlike(st.lines);
  }

  lemma OfferFollows(st: OrderState)
    requires !st.proceed && !st.awaiting && Complete(st) && NothingOpen(st.lines)
    ensures MissingRoute(CheckFields(st)) == OfferConfirmation
  {
    AskedExactlyWhen(st);
    BlockedAlike(st.lines);
    OrderableUnblocked(st.lines);
  }

  /**
   Exactly when an offer is made: the order is complete, every resolved line has a quantity, and
   every unresolved line is one the catalog did not have or could not decide.
   */
  lemma OfferedExactlyWhen(st: OrderState)
    requires !st.proceed && !st.awaiting
    ensures MissingRoute(CheckFields(st)) == OfferConfirmation <==> Complete(st) && NothingOpen(st.lines)
  {
    if MissingRoute(CheckFields(st)) == OfferConfirmation {
      OfferNeeds(st);
    }
    if Complete(st) && NothingOpen(st.lines) {
      OfferFollows(st);
    }
  }

  lemma AskedExactlyWhen(st: OrderState)
    ensures MissingFields(st) == [] <==> Filled(st) && st.mandate && MissingInCart(st.lines) == []
  {
  }

  /** With a line to order, the two notions of a blocking line differ only in lines that ran out. */
  lemma BlockedAlike(lines: seq<Line>)
    requires Orderable(lines) != [] && !AnyPending(lines)
    ensures Blocking(lines) <==> RouteBlocked(lines)
    ensures RouteBlocked(lines)
       <==> exists k :: 0 <= k < |lines| && !lines[k].resolved && lines[k].status !in {NotFound, Ambiguous}
  {
    forall k | 0 <= k < |lines| && !lines[k].resolved && lines[k].status !in {NotFound, Ambiguous}
      ensures lines[k].status !in {NotFound, StockoutPending}
    {
    }
  }

  lemma OrderableUnblocked(lines: seq<Line>)
    ensures !AnyPending(Orderable(lines)) && !RouteBlocked(Orderable(lines))
    ensures Orderable(lines) != [] ==> Orderable(Orderable(lines)) != []
  {
    if Orderable(lines) != [] {
      assert IsOrderable(Orderable(lines)[0]);
    }
  }

  /** Each node leads to one with fewer to come, so a turn runs at most twelve nodes besides the tool loop. */
  lemma NodesRunDown(node: Node, st: OrderState)
    requires node != End
    ensures Rank(Next(node, st)) < Rank(node) <= 12
  {
  }

  // ---------- what the nodes make of a session ----------

  /** What a turn starts from: the stored state, and the draft for whatever the state does not say. */
  lemma SessionComesBack(state: Option<OrderState>, draft: Option<OrderState>, request: Request)
    ensures var st := Load(state, draft, request);
            && (state.Some? && state.value.lines != [] ==> st.lines == state.value.lines)
            && (state.Some? && state.value.name != "" ==> st.name == state.value.name)
            && (state.Some? && state.value.address != "" ==> st.address == state.value.address)
            && (state.Some? && state.value.phone != "" ==> st.phone == state.value.phone)
    ensures var st := Load(state, draft, request);
            draft.Some? ==>
              && (state.None? || state.value.lines == [] ==> st.lines == draft.value.lines)
              && (state.None? || state.value.name == "" ==> st.name == draft.value.name)
              && (state.None? || state.value.address == "" ==> st.address == draft.value.address)
              && (state.None? || state.value.phone == "" ==> st.phone == draft.value.phone)
    ensures var st := Load(state, draft, request);
            && st.awaiting == (state.Some? && state.value.awaiting) && !st.proceed
            && st.unavailable == [] && st.mandate == request.mandate
            && st.reservationId == (if state.Some? then state.value.reservationId else None)
            && st.invoice == (if state.Some? then state.value.invoice else None)
  {
  }

  /** A message replaces the customer's name, address and phone where it gives them, and no flag of the session. */
  lemma MessageTakesEffect(st: OrderState, env: Env)
    ensures var after := Parse(st, env);
            && (if env.name == "" then after.name == st.name else after.name == env.name)
            && (if env.address == "" then after.address == st.address else after.address == env.address)
            && (if env.phone == "" then after.phone == st.phone else after.phone == env.phone)
            && after.(lines := st.lines, name := st.name, address := st.address, phone := st.phone) == st
  {
  }

  /** A question that was open is answered by this message, one way or the other, and nothing else changes. */
  lemma QuestionIsAnswered(st: OrderState, request: Request)
    ensures var after := Confirm(st, request);
            && !after.awaiting && after.(awaiting := st.awaiting, proceed := st.proceed) == st
            && (after.proceed <==> if st.awaiting then request.proceeds else st.proceed)
  {
  }

  /** The field check reports what is missing; it clears the order, reduced to what can be reserved, exactly when nothing is open. */
  lemma FieldCheckClears(st: OrderState)
    ensures var after := CheckFields(st);
            && after.missing == MissingFields(st)
            && (after.status == Validated
                <==> MissingFields(st) == []
                     && forall k :: 0 <= k < |st.lines| && !st.lines[k].resolved ==>
                          || st.lines[k].status in {NotFound, StockoutPending}
                          || (st.lines[k].status == Ambiguous && Orderable(st.lines) != []))
            && (after.status == Validated || after.status == AwaitingFields)
            && after.lines == (if after.status == Validated && Orderable(st.lines) != [] then Orderable(st.lines) else st.lines)
            && after.(missing := st.missing, status := st.status, lines := st.lines) == st
  {
  }

  /** An offer leaves the order as it is and the question open. */
  lemma OfferAsks(st: OrderState)
    ensures var after := Offer(st);
            && (after.awaiting <==> st.awaiting || Orderable(st.lines) != [])
            && after.status == (if Orderable(st.lines) != [] then AwaitingConfirmation else AwaitingFields)
            && (after.proceed ==> st.proceed && Orderable(st.lines) == [])
            && after.(awaiting := st.awaiting, proceed := st.proceed, status := st.status) == st
  {
  }

  /** The invoice is for exactly the lines of the cart, under the reservation's id if there is one; both flags are down. */
  lemma InvoiceIsForCart(st: OrderState, env: Env)
    ensures var after := WithInvoice(st, env);
            && after.invoice.Some? && after.invoice.value.lines == st.lines
            && (st.reservationId.Some? ==> after.invoice.value.orderId == st.reservationId.value)
            && (st.reservationId.None? ==> after.invoice.value.orderId == env.freshId)
            && !after.awaiting && !after.proceed && after.status == Validated
            && after.(invoice := st.invoice, awaiting := st.awaiting, proceed := st.proceed, status := st.status) == st
  {
  }

  /** Only a reserved order is invoiced; otherwise the invoice is dropped and what the service reported short is kept. */
  lemma RepliesDecide(st: OrderState, env: Env)
    ensures var after := ResolveReplies(st, env);
            && (after.status == Invoiced <==> env.reserved) && (!env.reserved ==> after.status == AwaitingFields)
            && after.invoice == (if env.reserved then st.invoice else None)
            && after.unavailable == (if !env.reserved then env.reported else if env.paid then [] else st.unavailable)
            && !after.awaiting && !after.proceed
            && after.reservationId == (if st.invoice.Some? then Some(st.invoice.value.orderId) else st.reservationId)
            && after.lines == st.lines && after.name == st.name && after.address == st.address && after.phone == st.phone
  {
  }

  /** Running the tools, asking and dispatching change nothing of the order. */
  lemma OrderIsLeftAlone(node: Node, st: OrderState, request: Request, env: Env)
    requires node in {React, AskForFields, Dispatch}
    ensures var after := Run(node, st, request, env, None, None);
            && after.(status := st.status) == st && (node == AskForFields ==> after.status == AwaitingFields)
            && (node == AskForFields ==> Next(node, after) == End)
  {
  }

  /** An off-topic message leaves the order alone and ends the turn; any other goes on. */
  lemma OffTopicEnds(st: OrderState, request: Request, env: Env)
    ensures var after := Run(OffTopicGuard, st, request, env, None, None);
            && Next(OffTopicGuard, after) == (if env.offTopic then End else ParseIntent)
            && after.(offTopic := st.offTopic, status := st.status) == st
  {
  }
}
