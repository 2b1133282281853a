# Order-to-payment spine of the merchant agent, in Dafny

The merchant agent takes grocery orders from other agents: a conversation collects an order, an invoice is
written, stock is reserved, a payment link is sent, and a webhook settles the payment. This project models
that spine and proves what it keeps, over every run and every interleaving the code allows.

`dafny verify dfyconfig.toml` checks the whole project.

| file | models |
|---|---|
| `WorkerProtocol.dfy`, `WorkerService.dfy` | the reservation worker: hold rows in Postgres against a reserved counter in Redis, statement by statement; the service object, whose operations are runs of that protocol |
| `HoldLedger.dfy`, `HoldConcurrency.dfy` | the conditional-decrement reservation service: one operation at a time with its object, and statement by statement under concurrency |
| `Conversation.dfy`, `NodeLoops.dfy`, `SessionSafety.dfy` | the agent's session state, its nodes and edges; the loops inside the nodes; all sessions and turns together |
| `ReactLoop.dfy` | the bounded tool loop inside a turn |
| `Saga.dfy` | reservation and payment link of one invoice, over every combination of replies, losses and deaths |
| `Webhook.dfy`, `WebhookConsumer.dfy` | one payment webhook; the consumer with its committed offset and seek-back |
| `EndToEnd.dfy` | saga and consumer on one database, from the dispatched invoice to the settled payment |
| `Similarity.dfy`, `CartFilter.dfy` | edit-distance name matching; the cart's dominance filter |
| `RateLimiter.dfy`, `Billing.dfy`, `Mandate.dfy`, `CatalogUpsert.dfy` | sliding window, invoice arithmetic, replay protection, catalog upload |
| `Holds.dfy`, `Sums.dfy`, `Picking.dfy`, `Outcomes.dfy` | shared tables, sums, what it means to pick elements in order, options |

How the concurrent parts are modelled: an action is one SQL statement, Redis command, node or message step;
a process may fail or crash in front of any of them; uncommitted writes are private; rows are locked from the
statement that reads them for update to the end of the transaction. Fields called history variables record
the past and steer nothing.

## What the proofs found

- The worker checks every line of a request against the same counter before it raises any, so two lines of one
  item can together exceed the stock: a request is safe exactly when its items are distinct
  (`WorkerService.SafeExactlyWhenDistinct`). It also undoes its increments when a database commit took effect
  but reported an error; after that any accepted request can be oversold (`WorkerService.UnseenCommitOversells`).
- The agent makes its offer only with a verified mandate, but the go-ahead skips the field check, so the
  invoice turn carries whatever mandate flag that last request has (`SessionSafety.InvoiceWithoutMandate`).
  The worker in front of the agent refuses turns without a mandate; the agent itself does not look again.
- A link can be paid until its `expire_by`. For an order settled without a success reply from its reservation, an
  open link stays payable exactly when its own reply was lost or its cancellation failed
  (`Saga.LinkPayableExactlyWhen`); a stored id that has run out of its 600 seconds leaves such a link only where links
  are given out for longer than that (`Saga.IdOutlivesLinkExactlyWhen`). A turn that dies cancels nothing any more
  (`Saga.DeadTurnCancelsNothing`). The session drops a voided link from the invoice and the link field, but
  `payment_result` keeps it (`Saga.OutcomeKeeps`).
- A hold outlasts every payment on its link if and only if the link expires no later (`Saga.PaymentsBeatExpiryExactlyWhen`).
  Then a captured payment first processed after the reservation can miss its holds only through slow processing, and
  one processed within the difference of the two expiries is final (`EndToEnd.PromptPaymentIsFinal`).
- A webhook without a payment id is audited once per delivery, because NULLs never collide in the unique index
  (`Webhook.AuditIdempotentExactlyWhen`). A message that can never be processed,
  be it malformed or refused by the database each time, blocks its partition, and nothing else does
  (`WebhookConsumer.DrainableExactlyWhen`).
- A mandate presented in the very second it was issued can be presented once more when its key has just expired
  (`Mandate.ReplayableExactlyWhen`).
- A catalog row that Python and the database lower-case differently never finds its own item again
  (`CatalogUpsert.SafeRowExactlyWhen`).
- Inside a turn the planner never sees an unavailable item, so the cross-sell tool cannot run there
  (`SessionSafety.NoCrossSellInTurns`).

## Assumptions

- Worker: `decrby` and `delete` on the counter are one atomic step; items stay active; requests name distinct
  items; no database commit takes effect unnoticed. The last two are shown necessary.
- All clocks a component reads are one clock that does not run backwards; mandates use whole seconds. Clock
  readings are `real` in the limiter and whole seconds in the saga, where cutting a link's expiry down to the second
  only makes links end sooner.
- Lower-casing, the name normalisation, UUID parsing and JSON parsing are parameters; the hash of a mandate
  signature is injective.
- Caches (catalog index, offers, `invoice:` keys) are not part of any state: what they return is an arbitrary input.
- One consumer is active per webhook partition. Invoice ids are dispatched at most once, which is proved for the
  agent, so nobody else reserves for an invoice at hand.

## Model

| member | source | states |
|---|---|---|
| WorkerProtocol.NoOversell | services/reservation_worker/reservation_service.py:121-273 | in every interleaving of reserve, commit, release and expiry, crashes and lost Redis replies included, each counter is at least the held total and the held total never exceeds the stock |
| WorkerProtocol.CommitNeverShort | services/reservation_worker/reservation_service.py:192-201 | the insufficient-stock branch of commit is never enabled in a reachable state |
| WorkerProtocol.ExactWithoutFaults | services/reservation_worker/reservation_service.py:106-119 | without crashes the counter is the held total plus exactly the uncommitted increments and unpaid decrements; with all processes idle it is exact and what is reported available is stock minus held |
| WorkerProtocol.UnseenCommitUnderstates | services/reservation_worker/reservation_service.py:161-164 | a commit that took effect behind an error leaves the counter short by the whole request |
| WorkerProtocol.HoldEndsForCause | services/reservation_worker/reservation_service.py:76-94 | in any run, faults included, a hold that ends was released for its own invoice, released by an expiry scan after its time was up, or committed for its own invoice |
| WorkerProtocol.StockIsSold | services/reservation_worker/reservation_service.py:192-201 | stock on hand plus committed quantity of an item is the same number in every state of every sound run |
| WorkerService.UnseenCommitOversells | services/reservation_worker/reservation_service.py:161-164 | from any settled state, any accepted request whose commit goes unseen can be oversold: a fault-free run follows in which its first item is held beyond its stock |
| WorkerProtocol.SoloReserve | services/reservation_worker/reservation_service.py:129-164 | a reservation nobody interferes with is a fault-free run to the state with the rows and the raised counters |
| WorkerService.NormalizeLineItems | services/reservation_worker/reservation_service.py:54-68 | accepts exactly non-empty lists of complete lines with positive quantities, otherwise reports the first bad line's complaint |
| WorkerService.CollectRows | services/reservation_worker/reservation_service.py:187-190 | the loop marks exactly the selected rows and collects their quantity per item and number per invoice |
| WorkerService.CheckLines | services/reservation_worker/reservation_service.py:132-143 | refuses exactly when some line does not fit by itself, and names the first one |
| WorkerService.ReservationService.TrueAvailable | services/reservation_worker/reservation_service.py:106-119 | stock minus counter, or not found |
| WorkerService.ReservationService.Reserve | services/reservation_worker/reservation_service.py:121-174 | succeeds exactly when all lines are well formed and fit one by one; new rows and counters stated, failures change nothing and name the first refused line; with distinct items it is a run of the protocol |
| WorkerService.ReservationService.PayOff | services/reservation_worker/reservation_service.py:205-206 | lowers every counter by its amount and deletes those used up |
| WorkerService.ReservationService.ChargeStock | services/reservation_worker/reservation_service.py:192-201 | succeeds exactly when every total is covered, and lowers each stock by its total |
| WorkerService.ReservationService.Commit | services/reservation_worker/reservation_service.py:176-212 | all or nothing: exactly the HELD rows of the invoice become COMMITTED, stock and counters fall by their quantities; the number of rows; a run of the protocol |
| WorkerService.ReservationService.ReleaseHolds | services/reservation_worker/reservation_service.py:214-239 | exactly the HELD rows of the invoice become RELEASED, their counters are paid off; a run of the protocol |
| WorkerService.ReservationService.ReleaseExpiredHolds | services/reservation_worker/reservation_service.py:241-273 | exactly the HELD rows whose expiry is not after `now` become RELEASED, every other row stays as it is; counters paid off, count per invoice; a run of the protocol |
| WorkerService.ReserveIsSolo | services/reservation_worker/reservation_service.py:121-164 | the effect of an accepted reservation is a fault-free run of the protocol, and keeps a settled state settled |
| WorkerService.CommitIsSolo | services/reservation_worker/reservation_service.py:176-206 | the same for commit |
| WorkerService.ReleaseIsSolo | services/reservation_worker/reservation_service.py:214-233 | the same for release and expiry |
| WorkerService.SafeExactlyWhenDistinct | services/reservation_worker/reservation_service.py:132-159 | accepting a request leaves every hold backed, whatever the stock, if and only if it names no item twice |
| HoldLedger.ServedExactlyWhenFits | services/reservation_service/reservation_service.py:165-183 | the line-by-line decrement loop misses nothing if and only if every item covers the sum of its lines, repeated items included, and then takes exactly those sums |
| HoldLedger.ServeReports | services/reservation_service/reservation_service.py:165-186 | the decrement loop leaves each item its stock minus the lines it served, and reports exactly the others |
| HoldLedger.ReserveConserves | services/reservation_service/reservation_service.py:164-200 | a reservation keeps stock + held + paid per item, and stock non-negative |
| HoldLedger.SweepConserves | services/reservation_service/reservation_service.py:211-241 | so does the expiry sweep |
| HoldLedger.PayConserves | services/reservation_service/reservation_service.py:256-268 | so does marking an invoice paid |
| HoldLedger.Conservation | services/reservation_service/reservation_service.py:164-268 | over every sequence of the three operations |
| HoldLedger.ReleaseExpired | services/reservation_service/reservation_service.py:225-241 | the sweep's loop marks exactly the expired rows and puts back exactly their quantities |
| HoldLedger.ReservationService.Reserve | services/reservation_service/reservation_service.py:136-209 | error, failure and success replies and the tables after each; a failure changes nothing and reports exactly the lines whose item is unknown, inactive, or left with too little by the lines served before them, in order, each with what was left |
| HoldLedger.ReservationService.RollbackExpiredHolds | services/reservation_service/reservation_service.py:211-254 | exactly the HELD rows whose expiry is not after `now` become RELEASED and their stock is put back; the invoices reported are theirs |
| HoldLedger.ReservationService.MarkReservedPaid | services/reservation_service/reservation_service.py:256-268 | nothing of the invoice is held afterwards, its held rows are PAID, other rows and the stock are unchanged, and the count is the number of rows that became PAID |
| HoldConcurrency.Conservation | services/reservation_service/reservation_service.py:80-88 | stock + held + paid per item is constant and stock never negative in every interleaving of statements, failures and crashes included |
| HoldConcurrency.HoldEndsOnce | services/reservation_service/reservation_service.py:216-241 | a row leaves HELD at most once; its stock comes back once if it was released and never otherwise |
| HoldConcurrency.HoldEndsForCause | services/reservation_service/reservation_service.py:216-268 | a hold that ends was released by a sweep that found it expired when it read the clock, or paid by a mark for its own invoice |
| HoldConcurrency.CommitsOnlyWhatFits | services/reservation_service/reservation_service.py:164-200 | a reservation that commits, whatever ran beside it, found every item on sale with enough for all its lines together, and takes exactly that |
| HoldConcurrency.ReserveAlone | services/reservation_service/reservation_service.py:164-200 | a request that fits, on items nobody has locked, can be carried through and is then the one-step reservation of HoldLedger |
| HoldConcurrency.SweepAlone | services/reservation_service/reservation_service.py:211-241 | an undisturbed sweep runs to the end and is the one-step sweep |
| HoldConcurrency.MarkAlone | services/reservation_service/reservation_service.py:256-268 | an undisturbed payment mark runs to the end and is the one-step mark |
| HoldConcurrency.SweepNeverSkips | services/reservation_service/reservation_service.py:226-232 | the status guard inside the sweep's loop never fails |
| HoldConcurrency.SweepIsComplete | services/reservation_service/reservation_service.py:217-241 | every row that existed when a sweep began its select, and had expired by the time the sweep read off the clock, is RELEASED for good from its commit on, its stock put back exactly once, unless it was PAID by then |
| HoldConcurrency.InvoiceComesBack | services/reservation_service/reservation_service.py:211-241 | so a hold whose reply was lost comes back: a concurrent sweep that found all rows of an invoice expired leaves each PAID or RELEASED for good, with the stock of those not PAID put back exactly once |
| HoldConcurrency.PaidInTimeStaysPaid | services/reservation_service/reservation_service.py:256-268 | rows of an invoice whose paid mark commits before they expire are PAID then and ever after, and their stock is never put back |
| Conversation.NoFallThrough | services/merchant_agent/graph/build_graph.py:102-133 | without a go-ahead the field check leads to a question or an offer, never to the invoice |
| Conversation.OfferedExactlyWhen | services/merchant_agent/graph/build_graph.py:102-130 | without a go-ahead an offer is made if and only if all fields are given, the mandate is verified, a line can be ordered, none waits for a substitute, resolved lines have quantities and unresolved ones are unknown or ambiguous |
| SessionSafety.TurnsEnd | services/merchant_agent/graph/build_graph.py:67-153 | in any run, whatever the other turns do, a turn completes at most twelve nodes, the tool loop counted as one |
| Conversation.CatalogLooksUp | services/merchant_agent/graph/nodes.py:700-745 | after the catalog lookup a resolved line names an item, is not reported missing, and has a quantity unless it has no name |
| Conversation.ParsedSound | services/merchant_agent/graph/nodes.py:619-687 | merging, removing, filtering and substituting never leaves a resolved line without its item |
| Conversation.NamelessIsAskedFor | services/merchant_agent/graph/nodes.py:1085-1112 | a resolved line that cannot be ordered makes the field check ask for the product |
| Conversation.Orderable | services/merchant_agent/graph/nodes.py:1037-1046 | keeps only lines that can be reserved, and is empty exactly when there is none |
| NodeLoops.MergeExtracted | services/merchant_agent/graph/nodes.py:619-664 | each item goes into the first similar line or a new last one; on name, brand and quantity each line says what the last item that went into it said of that, or else what it said before; a line that was told anything has to be looked up again; lines no item is similar to stay as they are |
| NodeLoops.DropRemoved | services/merchant_agent/graph/nodes.py:299-325 | keeps the lines that are not cancelled, all of them, once each and in order |
| NodeLoops.ApplySubstitutePhrase | services/merchant_agent/graph/nodes.py:381-430 | pick by pick: the first waiting line of a similar name, else the first waiting line, becomes the picked product and brand, in the picked or else its own quantity, to be looked up again; the number of waiting lines falls accordingly and nothing else changes |
| NodeLoops.ApplyDefaultQty | services/merchant_agent/graph/nodes.py:88-100 | a line without a quantity gets one exactly if it is named, not unknown to the catalog, and has a brand, an item or a confirmation; nothing else changes |
| NodeLoops.ParseLines | services/merchant_agent/graph/nodes.py:619-687 | the steps in their order: merged, rid of the cancelled lines, rid of the lines similar ones know better, served with the picks, given default quantities; nothing gets confirmed, nothing cancelled comes through, a confirmed line the message leaves alone does |
| Conversation.SwapTarget | services/merchant_agent/graph/nodes.py:401-421 | a pick finds the first similar waiting line, else the first waiting one, and none only when none waits |
| NodeLoops.ResolveCatalogLines | services/merchant_agent/graph/nodes.py:700-745 | field by field: a given quantity never changes; a match takes id, name and brand from the catalog and confirms the line; no match and an undecided one keep the line and leave it unconfirmed; a waiting line keeps everything it says |
| NodeLoops.CheckAvailability | services/merchant_agent/graph/nodes.py:811-851 | reports exactly the confirmed lines with an item and a positive quantity that the stock does not cover, once each and in order, with their item, name and brand; nothing else changes but the status |
| NodeLoops.MarkLineStockoutPending | services/merchant_agent/graph/nodes.py:866-886 | exactly the lines with the same item, or a similar name and the same brand if one is given, lose item and confirmation and wait for a substitute |
| NodeLoops.SuggestAlternatives | services/merchant_agent/graph/nodes.py:953-972 | exactly the lines some unavailable item hits lose item and confirmation and wait for a substitute; nothing else changes but the report and the status |
| NodeLoops.PendingNeeds | services/merchant_agent/graph/nodes.py:1085-1112 | what is asked about a cart without an orderable line |
| NodeLoops.ComputeMissingFields | services/merchant_agent/graph/nodes.py:1066-1123 | which of the seven questions are asked, each under its own condition on the cart or the field, in their order |
| NodeLoops.FinalizeOrder | services/merchant_agent/graph/nodes.py:1371-1429 | reduces the cart to all its reservable lines, once each and in order, exactly when there are some and none has run out; reports exactly those that have; keeps or makes the reservation id |
| NodeLoops.OrderableIsAll | services/merchant_agent/graph/nodes.py:1037-1046 | the orderable lines are all confirmed lines with an item and a quantity that do not wait for a substitute, once each and in order |
| Conversation.SessionComesBack | services/merchant_agent/graph/nodes.py:195-250 | a turn starts from the stored cart, name, address and phone, from the draft where the state has none, with the stored flag and the mandate of this request |
| Conversation.OffTopicEnds | services/merchant_agent/graph/nodes.py:178-192 | an off-topic message leaves the order alone and ends the turn |
| Conversation.MessageTakesEffect | services/merchant_agent/graph/nodes.py:689-697 | a message replaces name, address and phone where it gives them |
| Conversation.QuestionIsAnswered | services/merchant_agent/graph/nodes.py:527-536 | an open question is closed by this message, with a go-ahead or without |
| Conversation.FieldCheckClears | services/merchant_agent/graph/nodes.py:1267-1277 | the check clears the order, reduced to what can be reserved, exactly when nothing is missing and no line blocks |
| Conversation.OfferAsks | services/merchant_agent/graph/nodes.py:539-585 | an offer leaves the order as it is and opens the question, if there is anything to order |
| Conversation.InvoiceIsForCart | services/merchant_agent/graph/nodes.py:1432-1463 | the invoice is for exactly the lines of the cart, under the reservation id if there is one |
| Conversation.RepliesDecide | services/merchant_agent/graph/nodes.py:1542-1690 | INVOICED if and only if reserved; otherwise the invoice is dropped and what the service reported short is kept |
| Conversation.OrderIsLeftAlone | services/merchant_agent/graph/nodes.py:1280-1368 | running the tools, asking and dispatching change nothing of the order |
| SessionSafety.InvoiceOnlyAfterOffer | services/merchant_agent/graph/nodes.py:527-585 | for any model output, catalog, concurrency, expiry and crash: an invoice is generated only in a turn with a go-ahead message that found the confirmation flag, after an offer to the same session, made before the turn loaded it, on a complete order; name, address and phone are present, only reservable lines are invoiced unless there is none, and the mandate is this request's |
| SessionSafety.GoAheadIsEnough | services/merchant_agent/graph/build_graph.py:103-104 | from any snapshot awaiting confirmation a go-ahead alone reaches the invoice, with either mandate flag |
| SessionSafety.InvoiceWithoutMandate | services/merchant_agent/graph/build_graph.py:103-104 | a reachable invoice turn without a verified mandate |
| SessionSafety.OfferReachable | services/merchant_agent/graph/nodes.py:539-585 | a full turn from an empty store to an offer, so the claims are not empty |
| SessionSafety.NoCrossSellInTurns | services/merchant_agent/graph/nodes.py:241-242 | when the tool loop runs no stockout is known, and the stock check comes next |
| SessionSafety.ChecksComeFirst | services/merchant_agent/graph/build_graph.py:67-153 | no reachable turn asks, offers or invoices before it has completed every node in front, once each and in order |
| SessionSafety.StockoutEndsTurn | services/merchant_agent/graph/build_graph.py:89-153 | a turn whose stock check, or last check, finds anything short comes to the suggestion of alternatives and ends there, whatever follows |
| SessionSafety.NoOfferWithStockout | services/merchant_agent/graph/build_graph.py:89-153 | no reachable turn that knows of a stockout asks, offers or invoices |
| SessionSafety.InvoiceIsMade | services/merchant_agent/graph/nodes.py:1432-1463 | a turn that makes its invoice makes it for exactly the lines of its cart, with the order row under its id, and comes to the dispatch |
| SessionSafety.InvoiceIsSent | services/merchant_agent/graph/build_graph.py:155-157 | the next node sends exactly that id out, and the turn ends with the outcome: invoiced if and only if reserved, the invoice dropped otherwise |
| SessionSafety.DispatchedAtMostOnce | services/merchant_agent/graph/nodes.py:1432-1455 | over all turns of all sessions no invoice id is sent to reservation and payment twice, and none, the last included, without its committed order row |
| SessionSafety.LoadGood | services/merchant_agent/graph/nodes.py:195-250 | whichever of state and draft is still stored, from whichever save, the flag comes with the fields and the offer it stands for |
| ReactLoop.PlansInOrder | services/merchant_agent/graph/planner.py:7-18 | after any number of rounds the planner picks the next applicable goal in a fixed order, then none |
| ReactLoop.RunTools | services/merchant_agent/graph/executor.py:11-134 | the loop ends; cross-sells for a known stockout, then offers and campaigns for identified items, in this order and as far as the rounds go, no goal planned twice; the executor is visited one more time than tools run, at most four times, three without a stockout, and at most the configured rounds plus one |
| Saga.InvoicedMeansHeld | services/merchant_agent/graph/nodes.py:1567-1622 | status INVOICED if and only if the reservation's success reply arrived, and then the hold rows of the invoice are exactly its lines, for good |
| Saga.OutcomeKeeps | services/merchant_agent/graph/nodes.py:1577-1690 | what each combination of replies leaves in the session: invoiced exactly when reserved, the link field only with both, `payment_result` whenever there was a link |
| Saga.HoldLasts | services/reservation_service/reservation_service.py:160-161 | the rows of a reservation expire `holdTtl` seconds after the clock was read for it, and none is released before |
| Saga.OpenExactlyWhile | services/payment_service/razorpay_client.py:87-98 | a link is open for exactly `linkTtl` seconds from the clock reading it was made with, until it is paid |
| Saga.CancelledForGood | services/payment_service/router.py:101-117 | a cancellation that gets through while the id is kept and nobody has paid makes the link unpayable for good |
| Saga.LinkPayableExactlyWhen | services/merchant_agent/graph/nodes.py:1623-1656 | settled without a success reply from the reservation, an open link can be paid if and only if its own reply was lost or the cancellation failed: unreached, id expired, or refused; where links live no longer than stored ids, the expired id drops out |
| Saga.IdOutlivesLinkExactlyWhen | services/payment_service/router.py:78-107 | no run ends with a cancellation that found no id and a link that can still be paid, if and only if links are given out for at most 600 seconds |
| Saga.ReservedLinkIsPayable | services/merchant_agent/graph/nodes.py:1567-1622 | with a success reply from the reservation the link can be paid if and only if it was made, is not paid and has not expired |
| Saga.DeadTurnCancelsNothing | services/merchant_agent/graph/nodes.py:1510-1539 | after a turn has died, whatever follows, a link not cancelled by then, even one made later, can be paid for as long as it is open, unless a cancellation under way is carried out late |
| Saga.LiveLinkWithoutHold | services/merchant_agent/graph/nodes.py:1665-1680 | from any start there is a run that settles with no hold and nothing cancelled, and with a payable link wherever links live at all |
| Saga.PaymentsBeatExpiryExactlyWhen | services/payment_service/razorpay_client.py:87-98 | with link and hold in place, no later payment can come after the holds have expired if and only if the link expires no later than they do |
| Saga.HoldCoversPayment | services/reservation_service/reservation_service.py:160-161 | a hold taken no earlier than its link was made, for at least as long, covers every payment made on the link |
| Webhook.PaymentLogProcessor.WriteInvoiceAudit | services/payment_log_service/payment_log_processor.py:121-151 | inserts unless the unique index refuses, and keeps the index unique |
| Webhook.PaymentLogProcessor.ProcessWebhook | services/payment_log_service/payment_log_processor.py:153-202 | a new audit row says success exactly for the events `payment.captured` and `payment_link.paid` or the statuses `captured` and `paid`, and names the first place that gives each of its fields; exactly then the HELD rows of the invoice in the notes become PAID, and no other row changes |
| Webhook.NotesAreFirst | services/payment_log_service/payment_log_processor.py:23-36 | the notes used are the first there are: the payment's, the link's, the payload's, those at the top |
| Webhook.DeliveryIsAbsorbed | services/payment_log_service/payment_log_processor.py:133-202 | after a delivery with a payment id its row is there and its invoice has nothing on hold |
| Webhook.RedeliveryCanBeStruck | services/payment_log_service/payment_log_processor.py:133-202 | a repeated delivery can be struck from any history if no new hold was taken for its invoice in between |
| Webhook.AuditIdempotentExactlyWhen | migrations/versions/20260909_0006_invoice_audit.py:58-63 | a repetition leaves the audit table alone if and only if the payment has an id |
| Webhook.RepetitionChangesExactlyWhen | services/payment_log_service/payment_log_processor.py:197-202 | with its audit row in place a delivery changes something exactly when it finds holds to pay |
| WebhookConsumer.CommittedMeansProcessed | services/payment_log_service/webhook_consumer.py:38-60 | under any failures and restarts every message below the committed offset was fully processed, first completions in order |
| WebhookConsumer.MalformedBlocks | services/payment_log_service/webhook_consumer.py:42-60 | the committed offset never passes a message that can never be processed |
| WebhookConsumer.DrainableExactlyWhen | services/payment_log_service/webhook_consumer.py:38-60 | from any reachable state some run commits the whole log if and only if no message that can never be processed stands at or above the committed offset |
| WebhookConsumer.EffectivelyOnce | services/payment_log_service/webhook_consumer.py:38-60 | with payment ids and no late holds, the tables are what they would be had each message been worked on at its first time only |
| WebhookConsumer.Consumer.ConsumeNext | services/payment_log_service/webhook_consumer.py:39-60 | one pass of the loop, with an exception anywhere, is a run of the consumer machine and moves on only when everything succeeded |
| EndToEnd.CapturedPaymentIsFinal | services/payment_log_service/payment_log_processor.py:197-202 | once the committed offset has passed a message with one of the four signs of a payment for the invoice, first processed after its reservation and before a sweep past its expiry, the invoice's rows are exactly its lines, all PAID, and stay so whatever follows |
| EndToEnd.LateOnlyWhenSlow | services/payment_log_service/payment_log_processor.py:197-202 | a payment comes too late for its holds only if it was first processed at or after their expiry |
| EndToEnd.PromptPaymentIsFinal | services/payment_log_service/payment_log_processor.py:197-202 | a payment captured on the link and first processed, after the reservation, within as many seconds as the holds outlast the link, leaves the invoice's rows exactly its lines, all PAID, whatever follows |
| Similarity.CloseExactlyWhenOneEdit | services/merchant_agent/graph/nodes.py:262-270 | distance at most one if and only if the names are equal or differ by one insertion, deletion or substitution |
| Similarity.LengthGap | services/merchant_agent/graph/nodes.py:260-261 | the distance is at least the difference in length, so the early exit is sound |
| Similarity.DistanceZero | services/merchant_agent/graph/nodes.py:262-270 | distance zero if and only if equal |
| Similarity.SimilarSymmetric | services/merchant_agent/graph/nodes.py:253-270 | name similarity is symmetric |
| Similarity.TwoRowDistance | services/merchant_agent/graph/nodes.py:262-270 | the two-row loop computes the recursive edit distance |
| Similarity.NamesSimilar | services/merchant_agent/graph/nodes.py:253-270 | true if and only if both normalised names are non-empty and one contains the other or they are one edit apart |
| Similarity.ContainsExactlyWhen | services/merchant_agent/graph/nodes.py:258-259 | containment is what is left when something is put before and after the needle |
| Similarity.FuzzyContains | services/merchant_agent/catalog_service.py:88-107 | true if and only if the needle is empty, contained, or longer than two characters and one edit away |
| CartFilter.DropDominated | services/merchant_agent/graph/nodes.py:670-684 | keeps, once each and in order, exactly the resolved rows and those of which no other row of a similar name knows more |
| CartFilter.ScoreCounts | services/merchant_agent/graph/nodes.py:677-678 | a row's score is the number of things known about it: a brand, a non-zero quantity, its item |
| CartFilter.ResolvedRowSurvives | services/merchant_agent/graph/nodes.py:677-680 | a resolved row is never dropped |
| CartFilter.ChainToSurvivor | services/merchant_agent/graph/nodes.py:669-684 | each dropped row is linked by similar, strictly richer rows to one that is kept |
| CartFilter.NeverEmptied | services/merchant_agent/graph/nodes.py:669-684 | a cart with rows keeps one |
| RateLimiter.Limiter.IsRateLimited | services/gateway/routers/converse.py:22-31 | rejects exactly when the closed 60 seconds up to now hold at least the limit of accepted requests of that consumer; others are untouched |
| RateLimiter.Limiter.NeverAboveLimit | services/gateway/routers/converse.py:22-31 | no closed minute, wherever it starts, holds more accepted requests than the limit |
| RateLimiter.AcceptKeepsLimit | services/gateway/routers/converse.py:28-31 | one more request is safe for every window if the minute before it has room |
| RateLimiter.BucketCounts | services/gateway/routers/converse.py:24-27 | after popping, the bucket is exactly what the last minute holds |
| RateLimiter.Decide | services/gateway/routers/converse.py:22-31 | one call for one bucket against the consumer's full history |
| RateLimiter.PopStale | services/gateway/routers/converse.py:26-27 | pops exactly what is older than the window |
| Billing.TaxRounding | shared/invoice_calc.py:29-32 | exact tax minus charged tax lies between zero and two paise, plus the odd basis point |
| Billing.TaxOfTwoCarts | shared/invoice_calc.py:29-32 | taxing two carts together costs the same as apart or two paise more |
| Billing.LargerDiscount | shared/invoice_calc.py:26-38 | a larger discount lowers taxable amount and tax, and raises the total only by losing free shipping, at most by the shipping charge |
| Billing.FreeExactlyWhen | shared/invoice_calc.py:26-38 | totals are non-negative, and zero exactly when nothing is taxable and shipping is free |
| Billing.OfferTargetSubtotal | services/merchant_agent/graph/nodes.py:111-119 | the sum of quantity times price over exactly the lines the offer names, all lines if it names none |
| Billing.BuildAcceptedOffers | services/merchant_agent/graph/nodes.py:122-146 | exactly the offers with an id and a target in the cart, once each and in order, under their own id and description; a flat offer saves its value, the others that percentage of their own target in whole paise, none less than nothing |
| Billing.SavingBounded | services/merchant_agent/graph/nodes.py:135-138 | savings are never negative, and up to a hundred percent never exceed the target |
| Billing.GenerateInvoice | services/merchant_agent/invoice_service.py:37-66 | lines at quantity times price, totals charged for their sum less the savings (as in the next row), and the listed offers |
| Billing.InvoiceForCart | services/merchant_agent/graph/nodes.py:1432-1446 | from the lines: the taxable amount is their sum less the listed savings, at least zero; tax is two equal halves that miss the exact tax by less than two paise and the odd basis point; shipping is charged below the minimum only; the total is all three |
| Billing.OneMoreOffer | services/merchant_agent/invoice_service.py:59-66 | one more offer never raises the taxable amount or the tax |
| Mandate.Verifier.VerifyMandate | services/async_worker/mandate_verifier.py:111-151 | accepted if and only if the issuer is trusted, the issue second lies within the last `maxAge` seconds, the signature is not blank and has no live key; on acceptance its key is set for 300 seconds, otherwise nothing changes and the refusal names something that is wrong |
| Mandate.NoReplay | services/async_worker/mandate_verifier.py:137-151 | a mandate accepted after its issue second is never accepted again, whatever else is verified in between |
| Mandate.ReplayableExactlyWhen | services/async_worker/mandate_verifier.py:137-151 | a replay gets through if and only if the mandate is still fresh in the second its key expires |
| Mandate.KeyStays | services/async_worker/mandate_verifier.py:147-150 | no later verification shortens a key's life |
| CatalogUpsert.Catalog.UpsertCatalogRows | services/merchant_admin/routers/upload.py:152-195 | an item no row agrees with in folded name, brand and weight and in expiry is unchanged, every old item keeps its product, each new item is a row's product; inserted plus updated is the number of rows, inserted the growth of the table; each row touched its own item; a failure changes nothing |
| CatalogUpsert.SameIdentityExactlyWhen | services/merchant_admin/routers/upload.py:160-168 | two products have one identity if and only if name, brand and weight fold alike and the expiry dates are equal |
| CatalogUpsert.Lookup | services/merchant_admin/routers/upload.py:160-169 | none, the only match, or the error for several |
| CatalogUpsert.UploadMerges | services/merchant_admin/routers/upload.py:159-191 | every identity ends with its old quantity plus all its rows and its last row's price, active, in one item |
| CatalogUpsert.IdentitiesStayDistinct | services/merchant_admin/routers/upload.py:159-191 | pairwise distinct identities stay so, and the upload succeeds |
| CatalogUpsert.FailsExactlyWhen | services/merchant_admin/routers/upload.py:160-169 | the upload fails if and only if a row names an identity the catalog already had twice |
| CatalogUpsert.QuantitiesIgnoreOrder | services/merchant_admin/routers/upload.py:187-189 | shuffling the rows changes no identity's quantity |
| CatalogUpsert.InsertedCount | services/merchant_admin/routers/upload.py:171-185 | the inserted count is the number of identities the catalog did not have |
| CatalogUpsert.SafeRowExactlyWhen | services/merchant_admin/routers/upload.py:160-169 | a row keeps every distinct catalog distinct if and only if Python and the database fold it alike |

## Left out

- WorkerProtocol.NoOversell: holds for requests with distinct items and commits whose outcome is known; `SafeExactlyWhenDistinct` and `UnseenCommitOversells` show that neither can be dropped.
- WebhookConsumer.EffectivelyOnce: for messages with a payment id and no hold taken after the payment; `AuditIdempotentExactlyWhen` says why the first is needed.
- SessionSafety.InvoiceOnlyAfterOffer: when no line is orderable on the go-ahead path it claims nothing about the cart; the code has no guarantee there.
- Saga.LostHoldComesBack: joins lost replies with the sweep, which is one operation there; `HoldConcurrency.InvoiceComesBack` is the statement for concurrent sweeps.
- EndToEnd.CapturedPaymentIsFinal: reservations, sweeps and payment marks are one operation each; an early payment, or one after a late sweep, is not promised anything.
- CatalogUpsert.QuantitiesIgnoreOrder: quantities only; price and the spelling kept for a new item do depend on the order.
- Row validation of the upload and picking the best of several catalog matches: they would only add easy members.
- Language-model calls, prompts, reply texts, phrase patterns, brand tables: parsed intents, cancelled lines, substitute picks and go-ahead messages are arbitrary inputs.
- The session stores are modelled as arbitrary earlier saves, so nothing is claimed about how long a session lives.
- The two writes of one save, state and draft, are not separate steps; a turn may read them from different saves, which covers it.
- Item names are taken as already trimmed; prices and stock figures carried on cart lines are in Billing only.
- The tool loop is one step of the turn in SessionSafety; ReactLoop has its rounds.
- Retrying after a failed reservation in the same session: the order row already exists, so the next invoice insert fails; no progress is claimed.
- Restocking by catalog upload is outside the reservation machines: it reads and writes quantities without a lock.
- Unlocked concurrency of `decrby` with `delete` and of reading and setting a replay key: each is one step here.
- Audit log rows, catalog cache refreshes and Redis copies of invoices: no modelled state depends on them.
- Integer column widths: quantities and amounts are unbounded.
- Unicode white space in a signature: only space, tab and line ends count as blank.
- HTTP, Kafka and SQL internals, cryptography, authentication, merchant profiles, payment provider transport, frontend and scripts. The fake payment mode makes links nobody can pay.
