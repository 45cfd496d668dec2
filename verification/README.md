# Marketplace verification model

A Dafny model of the concurrency-critical and arithmetic parts of the marketplace, with proofs of what they
guarantee. `dafny verify dfyconfig.toml` checks everything.

## What is modelled

**Payment settlement.** `SettlementMachine` is a small-step machine over the payment, order, event and product rows.
Any number of clients run webhook deliveries, status checks, failure claims, cancellations, order payments and
fulfilment steps, one SQL statement at a time, with crashes anywhere. Writes of a transaction become visible at its
commit; what a statement read may be stale by then. `owner` holds the locks kept to the end of a transaction: advisory
keys (which may collide), updated rows, inserted event ids, entries in the unique indexes of the payments. A statement that must wait, or does not apply, changes
nothing. `SettlementInvariant`, `SettlementSteps` and `SettlementCommits` prove the invariant step by step;
`SettlementTheorems` states what follows on every schedule, `SettlementMetadata` what becomes of a payment's stored
provider reference. `SettlementService` then has the services as programs: each method is one client's call, and before
every statement arbitrary steps of all other clients may run; a call that runs alone, with the locks it needs free, has
exactly the effect and the answer that `SettlementEffects` gives as functions of the rows. `SettlementGate` is the
decision both channels take on the provider's answer; `SettlementIncidents` has reachable inputs on which an answer is
not what it sounds like; `Stock` is the units arithmetic of cancellation.

**Supplier fulfilments and returns.** `SupplierTables` holds the rows, unique keys and writes; `SupplierMachine` the
interleaving of fulfilment moves, return requests and return decisions; `SupplierInvariant` and `SupplierTheorems` the
proofs; `SupplierService` the calls as programs, each of which knows which of its own steps changed the tables;
`SupplierEffects` what a call that runs alone does, and when its `idempotent` or `skipped` is not success.

**Chat hub.** `ChatPresence` is the plain relation of sockets and chats; `ChatRealtimeHub` the nested index changed in
place and proved to be that relation; `ChatBus` several instances joined by a bus that hands each publication to each
instance at most once, at any later time and in any order.

**Seller invitations.** `SellerInvitation` is the claim, sign-up and link protocol with a clock that only moves forward
and clock readings that may be old when used; `SellerInvitationService` has the theorems and the two calls.

**Algorithms.** `SlidingWindow` (rate limiter over a pruned, expiring sorted set), `ListingSearch` (keyset paging),
`Commission` (rule resolution and half-up rounding).

Assumptions about the platform: READ COMMITTED reads, atomic conditional updates, row locks and advisory locks kept to
the end of the transaction, enforced unique keys. Calls to the payment provider and to the identity provider return
arbitrary values.

## Where the code and its comments differ

The model follows the code, and the theorems say exactly when the comment holds.

- A fresh delivery that finds its payment already SUCCESS answers `ignored` without running the order step
  (`src/services/payment-webhook-service.ts:541-549`, `565-595`), although `src/services/payment-service.ts:80-89` says
  every observer recovers. `OnlyRecordedDeliveriesHeal`: a delivery that finds a settled payment heals its waiting order
  if and only if its event id was already recorded, whether the gates would accept or refuse it.
  `AFreshDeliveryLeavesTheOrderWaiting` is a reachable state and delivery where it is not.
- A unique violation in the claim's transaction is taken for a concurrent delivery of the same event
  (`src/services/payment-webhook-service.ts:552-560`). It can also come from `provider_transaction_id` or
  `provider_reference` (`prisma/schema.prisma:818`, `823`), when another payment was settled on the transaction: nothing
  settles, which is right (`NoTransactionPaysTwice`), but the answer is `duplicate` and the event is never recorded.
  `WhatDuplicateMeans`: after that answer the event is on record if and only if it was before;
  `ADuplicateThatIsNotOnRecord` is a reachable input where it is not.
- A claim writes back the payment metadata its caller read before taking the lock
  (`src/services/payment-service.ts:262-266`). `ReferenceSurvivesIff`: a stored provider reference survives the commit
  if and only if the last one the initialise route stored since that reading, if any, is the one read.
  `AStoredReferenceIsLost` is a schedule on which it does not.
- `unregister` also reports, as `(chat, False)`, rooms in which only other sockets of the user are joined
  (`backend/app/services/chat_realtime.py:138-144`).
- Descending searches order ties by ascending id but seek with `<` on the id (`src/services/search-service.ts:83-89`,
  `101`). `WalkIsComplete` gives the exact condition under which paging still returns every row once.
- The event key built for a supplier move names the action and not the occasion
  (`src/lib/dropshipping/ids.ts:35-41`). After a failure and an approved retry, a second confirmation with the built key
  is answered `idempotent` although the task stays unconfirmed; with a key of its own it succeeds but the purchase keeps
  its first amount (`src/services/dropshipping-fulfilment-service.ts:323-327`). See `SecondConfirmationIsAbsorbed`, and
  `OneConfirmationAgrees`: only a second confirmation can make purchase and task disagree on the cost.
- A return request under a used key is answered with the key's return (`src/services/dropshipping-return-service.ts:77-83`),
  and the key is the caller's choice (`src/lib/validations/dropshipping.ts:144`). `WhoseReturnIsAnswered`: it is about the
  caller's own item if and only if the key was used for that item; `AnotherBuyersReturnIsAnswered` is a reachable input
  where it is another buyer's and the caller has none.
- A unique violation while creating a supplier task is counted as `skipped`, as a concurrent run's task
  (`src/services/dropshipping-fulfilment-service.ts:291-296`). It can also be another line of the same order: the
  reference carries the line's number (`src/lib/dropshipping/ids.ts:10-13`), and the lines are read without an order
  (`src/services/dropshipping-fulfilment-service.ts:157-169`). `WhenLinesGetTheirTasks`: a line with a source and no
  fault has its task after a run if and only if it had one or no other line of its order holds its number;
  `ARenumberedLineIsSkipped` is a reachable order where one does, and an order of one line is safe
  (`SingleLinesKeepTheirPosition`). Or the violation comes from the creation's log line, whose key a caller may have
  used up (`src/lib/validations/dropshipping.ts:127`): the task is then there without its first line, if and only if the
  key is used (`WhenATaskLacksItsFirstLine`, reached in `ATakenCreationKeyHidesTheFirstLine`).

## Model

| member | source | states |
|---|---|---|
| `PaymentLifecycle.ClaimableIsNotTerminal` | src/lib/payment-state-machine.ts:61-84 | the claim guard, the terminal list and the transition table describe one rule |
| `PaymentLifecycle.TerminalComesLast` | src/lib/payment-state-machine.ts:61-84 | along any legal history only the last status can be terminal |
| `OrderLifecycle.OnlyTheFirstIsPending` | src/lib/order-state-machine.ts:91-102 | PENDING is left for good |
| `OrderLifecycle.NeverPaidAndCancelled` | src/lib/order-state-machine.ts:91-102 | no legal order history holds both PAID and CANCELLED |
| `SettlementGate.StatusGateIsCorroboration` | src/services/payment-verify-service.ts:230-278 | the status check accepts exactly the answers that say success with the row's amount, currency and one of its two references |
| `SettlementGate.WebhookGateImpliesStatusGate` | src/services/payment-webhook-service.ts:281-499 | whichever lookup found the row, the webhook accepts iff the status check would accept the same answer and the delivery's amount, currency and reference agree too |
| `SettlementGate.VerificationReferences` | src/services/payment-verify-service.ts:122-130 | one or two distinct references, ours first, covering every reference a corroborating answer can carry |
| `SettlementTheorems.RunKeepsInv` | src/services/payment-service.ts:232-493 | every schedule of every mix of clients keeps the protocol's invariant, and rows only evolve forward |
| `SettlementTheorems.OneSuccessPerOrder` | src/services/payment-service.ts:232-318 | at most one SUCCESS payment per order on every schedule, with stale callers, lock-free failure claims and crashes |
| `SettlementTheorems.NoTransactionPaysTwice` | prisma/schema.prisma:818-823 | on every schedule two settled payments, of one order or two, differ in the provider reference they were settled on and in their transaction id |
| `SettlementTheorems.CollectedOrdersArePaidInFull` | src/services/order-transition-service.ts:368-440 | an order in PAID, SHIPPED, DELIVERED or COMPLETED always has a SUCCESS payment of exactly its total |
| `SettlementTheorems.SettledMoneyIsCorroborated` | src/services/payment-webhook-service.ts:359-499 | every SUCCESS payment was settled on a provider answer that passes the status gate against the row as it stands |
| `SettlementTheorems.FirstOutcomeWins` | src/services/payment-service.ts:238-318 | a payment's history is a legal path, it has ended iff some claim won it, at most one claim ever wins, and every answer ever given is true of the rows |
| `SettlementTheorems.CommittedOutcomesAreFinal` | src/services/payment-service.ts:238-318 | ended payments, recorded events and cancelled orders never change again, and collected orders stay collected |
| `SettlementTheorems.EventStatusTellsWhatHappened` | src/services/payment-webhook-service.ts:330-562 | a committed charge event is PROCESSED iff its own transaction claimed, IGNORED iff it answered without claiming, FAILED iff no payment was located for the delivery or a gate refused it on rows as they once stood, and never RECEIVED |
| `SettlementTheorems.RecordedEventIsNeverActedOnAgain` | src/services/payment-webhook-service.ts:649-688 | after its commit an event id is never reported by any later or concurrent delivery, and its row stays |
| `SettlementTheorems.RecordedEventMovesNoPayment` | src/services/payment-webhook-service.ts:649-688 | once an event id is committed, a client that carries it up to its own insert changes no row by any step, and comes at most to a recovery |
| `SettlementTheorems.DuplicatesOnlyPay` | src/services/payment-webhook-service.ts:621-633 | a recovery, and the order step it leads to, changes by any step no payment, event or stock, and an order at most from PENDING to PAID |
| `SettlementTheorems.StockIsConserved` | src/services/order-transition-service.ts:204-276 | for every listing, stock plus the units of its non-cancelled orders is constant on every schedule |
| `SettlementTheorems.CancelAndPayNeverBothWin` | src/services/order-transition-service.ts:204-228 | no order history ever holds both a payment and a cancellation |
| `SettlementMetadata.ReferenceSurvivesIff` | src/services/payment-service.ts:262-266 | from any claim's reading of the row to its winning commit, whatever else runs, the stored provider reference survives iff the last one the initialise route stored in between, if any, is the one read |
| `SettlementMetadata.AStoredReferenceIsLost` | src/services/payment-service.ts:262-266 | a schedule on which a reference is stored just before the winning commit and gone after it |
| `SettlementEffects.FreshDeliverySettles` | src/services/payment-webhook-service.ts:509-611 | a fresh accepted delivery settles its payment iff the payment is open, its order has no other success and its transaction has settled no other payment; then the event says PROCESSED, the id is on the row, and the order is PAID if it waited for exactly this amount; when only the last condition fails it is answered duplicate and nothing changes, not even the event table |
| `SettlementEffects.WhatDuplicateMeans` | src/services/payment-webhook-service.ts:552-563 | duplicate is answered iff the event was recorded or the transaction is spent on another payment; the event is on record afterwards iff it was before, and after every other answer it is |
| `SettlementEffects.OnlyRecordedDeliveriesHeal` | src/services/payment-webhook-service.ts:541-633 | a delivery about a settled payment with a waiting order heals the order iff its event id was recorded before, accepted or refused |
| `SettlementIncidents.AFreshDeliveryLeavesTheOrderWaiting` | src/services/payment-webhook-service.ts:541-549 | in the crash window of a reachable schedule a fresh accepted delivery is answered ignored, recorded, and leaves the paid order waiting |
| `SettlementIncidents.ADuplicateThatIsNotOnRecord` | src/services/payment-webhook-service.ts:552-563 | in a reachable state a fresh accepted delivery with a spent transaction id is answered duplicate, is not recorded, and settles nothing |
| `SettlementEffects.AcceptedCheckSettles` | src/services/payment-verify-service.ts:281-336 | an accepted status check of an open payment settles it iff its order has no success and the transaction has settled no other payment, and then leaves no waiting order behind it; when only the latter fails it throws and changes nothing |
| `SettlementEffects.DeliveriesOnlyHeal` | src/services/payment-webhook-service.ts:192-611 | a delivery changes an order at most from PENDING to PAID |
| `SettlementEffects.ChecksOnlyHeal` | src/services/payment-verify-service.ts:136-336 | a status check changes an order at most from PENDING to PAID |
| `SettlementEffects.SecondRunChangesNothing` | src/services/payment-webhook-service.ts:621-633 | a delivery answered duplicate, and a check of a settled payment, made twice in a row do no more than made once |
| `SettlementCommits.SuccessKeepsPayments` | src/services/payment-service.ts:245-286 | with the lock held and no sibling seen, committing a success keeps one SUCCESS per order |
| `SettlementCommits.SuccessKeepsKeysUnique` | src/services/payment-service.ts:267-281 | with its index entries reserved and nobody there, committing a success keeps both columns unique |
| `SettlementCommits.CommitClaimKeepsInv` | src/services/payment-webhook-service.ts:509-562 | the commit of event row and claim together keeps the invariant |
| `SettlementCommits.CommitFailureKeepsInv` | src/services/payment-service.ts:296-319 | a lock-free failure claim keeps the invariant |
| `SettlementCommits.CommitPaidKeepsInv` | src/services/order-transition-service.ts:378-440 | the order step keeps the invariant |
| `SettlementCommits.CommitCancelKeepsInv` | src/services/order-transition-service.ts:204-276 | cancellation with its stock keeps the invariant, conservation included |
| `SettlementCommits.CommitFulfilledKeepsInv` | src/services/order-transition-service.ts:584-594 | fulfilment steps keep the invariant |
| `SettlementCommits.StepKeepsInv` | src/services/payment-service.ts:232-493 | each of the twenty-nine kinds of step keeps the invariant |
| `SettlementService.Connection.ClaimPaymentSuccess` | src/services/payment-service.ts:232-293 | whatever interleaves, the decision is sound for its later commit, and a unique violation is another payment's committed entry; undisturbed it claims iff the row is open, its order has no success and its transaction no other payment, is superseded iff the row is open and the order has a success, and otherwise is rolled back or says how the row ended |
| `SettlementService.Connection.ClaimPaymentFailure` | src/services/payment-service.ts:296-319 | whatever interleaves, the row is terminal afterwards; undisturbed it wins iff the row is open and was open when read, and then only that row changes |
| `SettlementService.Connection.MarkOrderPaidForPayment` | src/services/payment-service.ts:340-379 | each outcome is true of the order row; undisturbed it is exactly the healing of the order |
| `SettlementService.Connection.FinishClaim` | src/services/payment-service.ts:414-493 | after the commit the answer is true, the event row says the same, and step two runs exactly for the settling answers |
| `SettlementService.Connection.RecoveredDuplicate` | src/services/payment-webhook-service.ts:621-633 | undisturbed, a duplicate changes nothing but the waiting order of a settled payment, given only that order's row lock |
| `SettlementService.RecoveryHealsOnce` | src/services/payment-verify-service.ts:171-174 | in every reachable state recovery pays exactly an order waiting for this money, touches no other row, never revives a cancelled order, and leaves nothing for a second recovery |
| `SettlementService.Connection.HandlePaystackWebhook` | src/services/payment-webhook-service.ts:192-611 | the answer is what the event table says, and duplicate without a recorded event means a spent transaction; undisturbed and with its own locks free, effect and answer are those of `DeliveredTo` and `DeliveryOutcome`, and a waiting order of a located settled payment is healed iff the event id was recorded before |
| `SettlementService.Connection.AskProvider` | src/services/payment-verify-service.ts:202-227 | the loop returns the reply for the first reference that is not rejected, and a rejection only if all are |
| `SettlementService.Connection.VerifyPaystackPaymentStatus` | src/services/payment-verify-service.ts:136-336 | every answer is true of the rows; undisturbed and with its own locks free, effect and answer are those of `CheckedBy` and `CheckOutcome`: it settles, fails, heals or leaves the payment as the provider's answer says, and throws on a spent transaction |
| `SettlementService.Connection.CancelOrder` | src/services/order-transition-service.ts:155-314 | undisturbed it cancels iff the order is PENDING and all items are listed, returns exactly the items' units, and otherwise changes nothing |
| `SettlementService.Connection.RestoreStock` | src/services/order-transition-service.ts:238-257 | the loop counts every unit of every item, or reports the missing listing |
| `Stock.RestockAddsUnits` | src/services/order-transition-service.ts:238-257 | restocking adds to each listing exactly the units the items name, repeated products included |
| `Stock.RestockUndoesReserve` | src/modules/orders/service.ts:325-400 | cancellation undoes what checkout took |
| `SupplierTheorems.RunKeepsInv` | src/services/dropshipping-fulfilment-service.ts:150-564 | every interleaving of task creations, moves, returns, decisions and outside changes keeps the invariant |
| `SupplierTheorems.LogReplaysToTheStatus` | src/services/dropshipping-fulfilment-service.ts:360-548 | the logged moves of a fulfilment are one path of the transition table from AWAITING_SUPPLIER_CONFIRMATION, ending at the row's status |
| `SupplierTheorems.TerminalForGood` | src/lib/dropshipping/fulfilment-state-machine.ts:20-37 | a delivered or cancelled fulfilment keeps its status on every continuation |
| `SupplierTheorems.StatusFollowsTheTable` | src/lib/dropshipping/fulfilment-state-machine.ts:94-135 | no step of anybody moves a status outside the table |
| `SupplierTheorems.RefusalsChangeNothing` | src/services/dropshipping-fulfilment-service.ts:378-392 | a step that leaves an idempotent answer or an error has written nothing |
| `SupplierTheorems.KeysAreUsedOnce` | prisma/schema.prisma:1829-1837 | an event key is logged at most once |
| `SupplierTheorems.UsedKeysStayUsed` | prisma/schema.prisma:1829-1837 | a used event key stays used |
| `SupplierEffects.WhenACallIsAbsorbed` | src/services/dropshipping-fulfilment-service.ts:347-564 | undisturbed, a call moves iff it is permitted and no unique value is taken, is answered idempotent iff its key is used after the move was made or a permitted move meets a taken value, and otherwise changes nothing |
| `SupplierEffects.RepeatedCallIsIdempotent` | src/services/dropshipping-fulfilment-service.ts:378-392 | a successful call made again at once is answered idempotent and changes nothing |
| `SupplierEffects.SecondConfirmationIsAbsorbed` | src/lib/dropshipping/ids.ts:35-41 | for every waiting task: confirmed, failed and reopened with built keys it can never be confirmed again with them, and with another key the purchase keeps its first amount |
| `SupplierEffects.ReferenceIsTakenWithinTheOrder` | src/lib/dropshipping/ids.ts:10-13 | order numbers are unique, so the reference of a line without a task is taken iff another line of the same order holds its number |
| `SupplierEffects.WhenALineGetsItsTask` | src/services/dropshipping-fulfilment-service.ts:180-307 | a line has its task after its turn iff it had one or has a source, an insert that works and a number no other line holds; it is counted as created iff moreover its log line is written, and skipped without a task only for its number |
| `SupplierEffects.WhenLinesGetTheirTasks` | src/services/dropshipping-fulfilment-service.ts:150-317 | the same for each line of a whole undisturbed run, in terms of the tables the run began with |
| `SupplierEffects.SingleLinesKeepTheirPosition` | src/lib/dropshipping/ids.ts:10-13 | the only line of an order never finds its number held |
| `SupplierEffects.WhenATaskLacksItsFirstLine` | src/services/dropshipping-fulfilment-service.ts:253-296 | a task created without a fault is counted as skipped, and lacks its first log line, iff its creation key is used |
| `SupplierEffects.ARenumberedLineIsSkipped` | src/services/dropshipping-fulfilment-service.ts:157-169 | a reachable order of two lines, read in another order on the second run, has a line skipped without a task |
| `SupplierEffects.ATakenCreationKeyHidesTheFirstLine` | src/lib/validations/dropshipping.ts:127 | a reachable move with a key of the caller's choice makes a later creation lose its first log line |
| `SupplierEffects.WhenAReturnIsFiled` | src/services/dropshipping-return-service.ts:66-181 | undisturbed, a return is filed iff the fulfilment is the buyer's, returnable and without a return, and the key is new; otherwise nothing changes |
| `SupplierEffects.WhoseReturnIsAnswered` | src/services/dropshipping-return-service.ts:77-83 | already filed names the one return under the key, and it is the caller's own iff this fulfilment's return was filed under it |
| `SupplierEffects.AnotherBuyersReturnIsAnswered` | src/lib/validations/dropshipping.ts:144 | a reachable state where a buyer is answered with another buyer's return and has none |
| `SupplierEffects.WhenADecisionIsMade` | src/services/dropshipping-return-service.ts:252-425 | undisturbed, a decision is made iff the table allows it, a resolution has its note, a refund has a settled payment to come from, and a resolution out of waiting finds the refund completed; otherwise nothing changes |
| `SupplierTheorems.FirstPriceForGood` | src/services/dropshipping-fulfilment-service.ts:319-344 | on every continuation a purchase keeps the amount it was created with, whatever is confirmed later |
| `SupplierTheorems.OneConfirmationAgrees` | src/services/dropshipping-fulfilment-service.ts:319-344 | in every reachable state a task has a purchase iff the log confirms it, and with a single confirmation both carry the same cost |
| `SupplierTheorems.RefundsInjectIntoItems` | src/services/dropshipping-return-service.ts:281-324 | each refund goes back to an item of its own, of its order, at that item's price |
| `SupplierTheorems.RefundsFitTheOrder` | src/services/dropshipping-return-service.ts:76-324 | on every schedule the refunds raised for an order sum to at most its items' totals |
| `SupplierTheorems.ResolvedMeansPaidBack` | src/lib/dropshipping/return-state-machine.ts:81-112 | a return waiting for its refund names one raised for it, and a resolved one with a refund has it completed |
| `SupplierInvariant.MoveIsSound` | src/services/dropshipping-fulfilment-service.ts:464-548 | a committed move goes on from where the log stood, even if the row was away in between |
| `SupplierInvariant.FilingIsSound` | src/services/dropshipping-return-service.ts:107-159 | filing keeps one return per fulfilment and per key |
| `SupplierInvariant.DecisionIsSound` | src/services/dropshipping-return-service.ts:279-394 | a decision keeps refunds and returns bound one to one |
| `SupplierService.Clerk.TransitionSupplierFulfilment` | src/services/dropshipping-fulfilment-service.ts:347-564 | whatever interleaves, exactly one of the call's own steps changes the tables if it answers that it moved, and none otherwise; undisturbed it moves iff the move is permitted and no unique value is taken |
| `SupplierService.Clerk.WriteRows` | src/services/dropshipping-fulfilment-service.ts:394-533 | the statements of the transaction write exactly the move's row, purchase, shipment and delivery |
| `SupplierService.Clerk.EnsurePurchaseRow` | src/services/dropshipping-fulfilment-service.ts:319-344 | a purchase exists afterwards, a new one at the confirmed cost, and no existing one has changed |
| `SupplierService.Clerk.EnsureSupplierFulfilmentsForPaidOrder` | src/services/dropshipping-fulfilment-service.ts:150-317 | whatever interleaves, the counts add up to the supplier lines: created ones had no task and have one, exceptions have no source, no product or a fault, all others have their task or another line of the order holds their number; undisturbed, effect and counts are those of `EnsuredBy` |
| `SupplierService.Clerk.ProvideTask` | src/services/dropshipping-fulfilment-service.ts:180-307 | whatever interleaves, a line ends with its task or another line of its order holds its number unless it has no source, no product or ran into a fault; undisturbed it does exactly `ProvidedBy` |
| `SupplierService.Clerk.CreateSupplierReturnRequest` | src/services/dropshipping-return-service.ts:66-181 | whatever interleaves, exactly one own step changes the tables if it answers that it filed, and none otherwise; then the return is there and the order's case is open; undisturbed it does exactly `FiledBy` |
| `SupplierService.Clerk.UpdateSupplierReturnStatus` | src/services/dropshipping-return-service.ts:252-425 | whatever interleaves, exactly one own step changes the tables if it decides, along the table, with the refund raised at the line's price and completed before resolution, and none otherwise; undisturbed it does exactly `DecidedBy` |
| `SupplierService.Clerk.DecideInTransaction` | src/services/dropshipping-return-service.ts:279-394 | the statements of the transaction amount to the ruling and its writes |
| `ChatPresence.AnnouncementsAreTheChanges` | backend/app/services/chat_realtime.py:128-195 | online and offline are announced exactly when a user's presence in a room changes |
| `ChatPresence.PresenceAlternates` | backend/app/services/chat_realtime.py:128-195 | over every run the announcements for a user and room alternate from online, and onlines minus offlines is 1 iff the user is present |
| `ChatPresence.AlternatingCounts` | backend/app/services/chat_realtime.py:128-195 | of alternating announcements onlines minus offlines is 0 or 1 by parity |
| `ChatPresence.RegisteringKeepsPresence` | backend/app/services/chat_realtime.py:125-126 | registering announces nothing because it ends nobody's presence |
| `ChatRealtimeHub.TidyPairs` | backend/app/services/chat_realtime.py:152-205 | a nested index without empty rooms or user sets is exactly its set of socket and chat pairs |
| `ChatRealtimeHub.TidyPresence` | backend/app/services/chat_realtime.py:197-203 | a user is in a room of the index iff one of the user's sockets is joined there |
| `ChatRealtimeHub.UnregisterTidy` | backend/app/services/chat_realtime.py:128-150 | clearing every room removes exactly the socket's pairs and leaves no empty set |
| `ChatRealtimeHub.Hub.Register` | backend/app/services/chat_realtime.py:125-126 | the index stays sound iff the socket is not moved to another user while joined |
| `ChatRealtimeHub.Hub.Unregister` | backend/app/services/chat_realtime.py:128-150 | removes the socket's pairs; its True pairs are exactly the rooms where it was the user's last, its False pairs the rooms the user is still in |
| `ChatRealtimeHub.Hub.LeaveEveryRoom` | backend/app/services/chat_realtime.py:133-150 | the loop over the rooms clears exactly this socket's entries, drops empty rooms, and reports each of the user's rooms once with whether the socket was the last |
| `ChatRealtimeHub.Hub.JoinedChats` | backend/app/services/chat_realtime.py:152-160 | the sorted projection of the relation to one socket |
| `ChatRealtimeHub.Hub.Join` | backend/app/services/chat_realtime.py:162-174 | adds one pair and reports membership and coming online exactly |
| `ChatRealtimeHub.Hub.Leave` | backend/app/services/chat_realtime.py:176-195 | removes one pair and reports membership and going offline exactly |
| `ChatRealtimeHub.Hub.OnlineOthers` | backend/app/services/chat_realtime.py:197-203 | the sorted users present in the room other than the asker |
| `ChatRealtimeHub.Hub.LocalRecipients` | backend/app/services/chat_realtime.py:207-234 | every socket joined to the chat, once |
| `ChatBus.DeliveredAtMostOnce` | backend/app/services/chat_realtime.py:207-310 | no publication reaches a socket of an instance twice, and no delivered payload carries the instance field |
| `ChatBus.OriginReachedOnce` | backend/app/services/chat_realtime.py:236-256 | over the whole later run a broadcast reaches exactly the sockets joined on the origin at that moment, once; the echo adds nothing |
| `ChatBus.RelayReachedOnce` | backend/app/services/chat_realtime.py:281-310 | elsewhere a publication reaches exactly the sockets joined when it is handled, once, and nobody if it is not relayable |
| `SellerInvitation.RunKeepsInv` | src/services/admin-seller-onboarding-service.ts:176-337 | every interleaving of activations and rotations keeps the token and link invariant |
| `SellerInvitation.InstallSparesClients` | src/services/admin-seller-onboarding-service.ts:197-231 | a rotation makes every claim it replaces a lost one, keeps lost ones lost, and changes no claim on any other seller |
| `SellerInvitationService.ConsumedMeansLinked` | src/services/admin-seller-onboarding-service.ts:308-328 | a consumed token implies a linked user |
| `SellerInvitationService.OnlyTheHolderLinks` | src/services/admin-seller-onboarding-service.ts:308-328 | only an activation holding the row's claim at commit links a user, and no other can be at that point |
| `SellerInvitationService.LinkedOnce` | src/services/admin-seller-onboarding-service.ts:308-328 | a linked identity never changes on any continuation |
| `SellerInvitationService.IdentitiesAreLinkedOnce` | prisma/schema.prisma:470 | on every schedule no two sellers, nor a seller and another account, are linked to one identity |
| `SellerInvitationService.LiveClaimExcludesEverybody` | src/services/admin-seller-onboarding-service.ts:197-231 | while a claim is at most fifteen minutes old nobody but its holder changes the token row |
| `SellerInvitationService.MatchingTimeMeansHolding` | src/services/admin-seller-onboarding-service.ts:290-328 | matching the claim time identifies the holder, so a timestamp suffices as a lease id |
| `SellerInvitationService.Desk.ActivateSellerInvitation` | src/services/admin-seller-onboarding-service.ts:259-337 | an activated answer means linked to the identity of this very call and consumed; undisturbed it activates iff claimable, signed up, not linked before, and the identity is linked to nobody |
| `SellerInvitationService.Desk.ResendAdminSellerInvitation` | src/services/admin-seller-onboarding-service.ts:176-237 | a new link is the stored one and unclaimed; undisturbed it is issued iff the seller is unlinked, the row is missing or may be rotated and is not locked, and the hash is new, is refused iff a live claim is under way, and otherwise changes nothing |
| `SlidingWindow.NoWindowHoldsMoreThanTheLimit` | backend/app/services/rate_limit.py:111-161 | no window of the bucket's length, wherever it lies, holds more than the limit of granted hits |
| `SlidingWindow.RoomMeansTheOldHitLeft` | backend/app/services/rate_limit.py:127-137 | a hit is granted iff the limit-th most recent hit, granted or refused, has left the window |
| `SlidingWindow.TrackedAfterHit` | backend/app/core/redis.py:242-269 | pruning and expiry are invisible from then on: the stored set goes on showing the window of the full history |
| `SlidingWindow.RedisGateway.SlidingWindowCount` | backend/app/core/redis.py:242-273 | with times that do not go back, the count is the hits of the full history in the window plus this one |
| `SlidingWindow.RateLimiter.Hit` | backend/app/services/rate_limit.py:111-161 | a counted hit is allowed iff fewer than the limit of hits lie in the window, with the exact remainder; without a count the degraded setting decides |
| `SlidingWindow.RateLimiter.Enforce` | backend/app/services/rate_limit.py:163-176 | it returns iff the hit is granted, and raises otherwise |
| `SlidingWindow.RateLimiter.Degraded` | backend/app/services/rate_limit.py:178-199 | fails open with everything allowed or closed with nothing |
| `ListingSearch.SearchListings` | src/services/search-service.ts:39-131 | the built conditions, the extra row and the slices amount to the page past the cursor of the filtered list |
| `ListingSearch.NextPageIsShorter` | src/services/search-service.ts:79-128 | the cursor key strictly moves, so following nextCursor ends |
| `ListingSearch.WalkIsComplete` | src/services/search-service.ts:79-128 | the pages concatenate to the full ordered list iff the sort is ascending or no page ends on a row whose sort value another match shares |
| `ListingSearch.CleanCursorLeavesTheRest` | src/services/search-service.ts:79-91 | past an untied cursor lies exactly the rest of the list |
| `ListingSearch.TiedCursorBreaks` | src/services/search-service.ts:83-101 | a descending cursor on a tied row always skips or repeats a row |
| `Commission.ResolvedIsChosen` | backend/app/services/commission_service.py:171-213 | the resolved rule is the one effective rule that nothing outranks by scope, then by latest start, then by position; resolution fails iff no rule applies |
| `Commission.OnlyOneIsChosen` | backend/app/services/commission_service.py:208-213 | at most one position can be chosen |
| `Commission.Calculate` | backend/app/services/commission_service.py:141-167 | commission and net add up to the gross and neither is negative |
| `Commission.RefusedOnlyWithoutARule` | backend/app/services/commission_service.py:106-167 | with well-formed rules a calculation is refused iff the gross is not positive or no rule applies |
| `Commission.ChargedByTheChosenRule` | backend/app/services/commission_service.py:141-239 | the charge carries the chosen rule's id and scope and is its fixed fee capped at the sale, or its share to the nearest cent with ties up |
| `Commission.NearestCent` | backend/app/services/commission_service.py:235-239 | a percentage is the nearest cent to the exact share, ties going up |
| `Commission.ClampIsForFixedFeesOnly` | backend/app/services/commission_service.py:157-160 | the clamp changes something iff a fixed fee exceeds the sale |
| `Commission.SplittingMovesLittle` | backend/app/services/commission_service.py:235-239 | charging n parts separately moves the total by at most (n+1)/2 cents |

## Left out

- HMAC signatures, JSON parsing, payload hashing and redaction, the provider's HTTP client: the provider's answer is an arbitrary value and only authentic deliveries arrive.
- JSON and base64url inside the search cursor: a cursor is the value and id it encodes, and an undecodable one is no cursor.
- Prisma, Postgres and Redis themselves; see the assumptions above.
- The webhook's three lookups of the payment row are separate reads (`src/services/payment-webhook-service.ts:285-323`) and one atomic step here; rows created or changed between them are not modelled.
- Sign-in elsewhere maps identities to new users, which are only their identities here; its optional mapping of a seller's unlinked row by email (`src/services/account-provisioning.ts:289-299`) is not modelled, so OnlyTheHolderLinks and LinkedOnce are about activations.
- ResendAdminSellerInvitation: looking for a missing invitation row and creating it are one step.
- Audit, notification and email writes, and result fields used only for them.
- Ownership and role checks of the routes, except those inside the supplier transition.
- Row locks of product rows: stock changes are relative increments applied at the cancellation's commit, which gives the same sums.
- Waiting: a statement that would have to wait leaves the call to time out, so no liveness is claimed under contention.
- SearchListings: the table does not change between pages, and the re-check of visibility when rows are loaded is one arbitrary predicate per page.
- SlidingWindowCount: one clock stands for the caller's and the store's, and each key has one window because bucket names are unique; identifier normalisation is not modelled.
- EnsureSupplierFulfilmentsForPaidOrder: expected dispatch dates, audit and notifications are not modelled, and the creating step may run for any line, which only adds behaviours.
- TransitionSupplierFulfilment: carrier, tracking and evidence are recorded on the shipment only; timestamps, text columns and the supplier reference of a recorded purchase are not modelled.
- UpdateSupplierReturnStatus: the payment read is the fact that the order has a SUCCESS payment; a completed refund is taken to stay completed.
- RefundsFitTheOrder: item totals are taken as not negative, as checkout computes them.
- DeliveredAtMostOnce: dead sockets found while sending are a later unregister; the bus loses or delays but never duplicates a publication to one instance.
- src/services/dropshipping-purchase-service.ts: its action table appears only as outside changes of a purchase's status.
- The retired PAYHERO provider beyond its early answer, cart, checkout pricing, account provisioning, moderation, listing visibility rules, other list queries and all user interface code: single-branch claims.
