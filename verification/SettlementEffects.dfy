/**
 What each settlement call makes of the database when it runs undisturbed, and what it then answers, as
 functions of the rows; and what those effects promise: money settles, orders are healed, nothing is revived.
 */
module SettlementEffects {
  import opened Options
  import opened SettlementGate
  import opened SettlementMachine
  import opened SettlementInvariant
  import opened Stock
  import P = PaymentLifecycle
  import O = OrderLifecycle

  // ---------- Outcomes ----------

  /** OrderPaidOutcome of the order step; OrderBusy is a lock wait that ran into the transaction timeout. */
  datatype OrderOutcome =
    | NowPaid | AlreadyPaid | AnomalyCancelled | AnomalyAmount | AnomalyTransition | OrderBusy

  datatype IgnoreReason = PaymentAlreadyTerminal | ContradictsTerminalState | OrderAlreadySettled

  datatype WebhookOutcome =
    | Duplicate
    | UnknownReference
    | RefusedAmount
    | RefusedCurrency
    | VerificationFailed
    | Ignored(reason: IgnoreReason)
    | RecordedOnly
    | Processed(order: OrderOutcome)
    | TimedOut

  datatype StatusOutcome =
    | NotFound | ProviderRetired | AlreadySettled(healed: OrderOutcome) | AlreadyTerminal
    | Unavailable | RejectedByProvider
    | StillWaiting | VerifiedFailed(applied: bool)
    | Mismatch
    | SupersededBySibling
    | VerifiedSuccess(applied: bool, order: OrderOutcome)
    | CheckThrew
    | CheckTimedOut

  datatype CancelOutcome =
    | Cancelled(restoredUnits: nat) | OrderNotFound | AlreadyCancelled | InvalidTransition | CancelTimedOut

  /** The HTTP client's three ways to end; an answer comes with the provider's transaction id, if it has one. */
  datatype ProviderReply = Answered(answer: Answer, id: Option<TransactionId>) | Rejected | Failed

  /** How a success claim ends: decided, or rolled back by a unique column or by a lock it waited for too long. */
  datatype ClaimResult = Decided(answer: SuccessAnswer) | UniqueViolation | LockTimeout

  // ---------- The order step ----------

  /** The crash window: money collected in full for an order that still waits for it. */
  predicate WaitingFor(db: Database, p: nat) {
    p < |db.payments| && Pays(db, p, db.payments[p].order) && db.orders[db.payments[p].order].status == O.PENDING
  }

  /** The order of payment p, moved to PAID. */
  function PaidBy(db: Database, p: nat): Database
    requires p < |db.payments| && db.payments[p].order < |db.orders|
  {
    var o := db.payments[p].order;
    db.(orders := db.orders[o := db.orders[o].(status := O.PAID, history := db.orders[o].history + [O.PAID])])
  }

  /** A waiting order that p pays for is PAID, and nothing else changes. */
  function HealedBy(db: Database, p: nat): Database {
    if WaitingFor(db, p) then PaidBy(db, p) else db
  }

  /** The anomaly that a refused order step reports, read off the committed rows. */
  function Classify(db: Database, p: nat): (outcome: OrderOutcome)
    ensures outcome != NowPaid && outcome != OrderBusy
  {
    if p >= |db.payments| || db.payments[p].order >= |db.orders| then AnomalyTransition
    else
      var order := db.orders[db.payments[p].order];
      if order.status == O.PAID then AlreadyPaid
      else if order.status == O.CANCELLED then AnomalyCancelled
      else if order.status == O.PENDING then AnomalyAmount
      else AnomalyTransition
  }

  function HealingOutcome(db: Database, p: nat): OrderOutcome {
    if WaitingFor(db, p) then NowPaid else Classify(db, p)
  }

  /** What a duplicate does: the order step of a settled payment, and nothing otherwise. */
  function RecoveredBy(db: Database, p: nat): Database {
    if Settled(db, p) then HealedBy(db, p) else db
  }

  // ---------- The success claim ----------

  /** Any SUCCESS payment of the order; there is at most one in a reachable database. */
  function SuccessOf(rows: seq<Payment>, o: nat): (p: Option<nat>)
    ensures p.Some? ==> p.value < |rows| && rows[p.value].order == o && rows[p.value].status == P.SUCCESS
    ensures p.None? ==> forall q :: 0 <= q < |rows| ==> !(rows[q].order == o && rows[q].status == P.SUCCESS)
  {
    Newest(rows, (r: Payment) => r.order == o && r.status == P.SUCCESS)
  }

  /** An open payment whose order has no success: its claim gets as far as the update. */
  predicate Winnable(db: Database, p: nat) {
    p < |db.payments| && P.Claimable(db.payments[p].status) && NoSuccess(db, db.payments[p].order)
  }

  /** The end of an undisturbed claim: open rows settle unless a sibling or the transaction's other payment has. */
  function VerdictOn(db: Database, j: Job): ClaimResult {
    var p := j.payment;
    if Settled(db, p) then Decided(AlreadySuccess)
    else if p >= |db.payments| || !P.Claimable(db.payments[p].status) then Decided(AlreadyTerminalOther)
    else if !Winnable(db, p) then Decided(Superseded)
    else if Clashes(db, j) then UniqueViolation
    else Decided(Claimed)
  }

  /** This transaction, by its id or by its reference, has settled a payment other than p. */
  predicate SpentElsewhere(rows: seq<Payment>, p: nat, id: Option<TransactionId>, reference: Reference) {
    || (id.Some? && TakenByAnother(rows, p, TransactionKey(id.value)))
    || (reference != "" && TakenByAnother(rows, p, ReferenceKey(reference)))
  }

  lemma ClashMeansSpent(db: Database, j: Job)
    ensures Clashes(db, j) ==> SpentElsewhere(db.payments, j.payment, j.transactionId, j.answer.reference)
    ensures j.row.transactionId.None? && SpentElsewhere(db.payments, j.payment, j.transactionId, j.answer.reference)
            ==> Clashes(db, j)
  {
    if j.row.transactionId.None? && j.transactionId.Some? {
      assert TransactionKey(j.transactionId.value) in KeysOf(j);
    }
    if j.answer.reference != "" {
      assert ReferenceKey(j.answer.reference) in KeysOf(j);
    }
  }

  /** What a decided claim commits: the payment row if it won, and its event row. */
  function Committed(db: Database, j: Job, answer: SuccessAnswer): Database {
    var p := j.payment;
    var wins := answer.Claimed? && p < |db.payments|;
    db.(payments := if wins then db.payments[p := SettledRow(db.payments[p], j)] else db.payments,
        events := EventsAfter(db.events, j, answer))
  }

  /** The answers after which the caller runs the order step. */
  predicate Settles(j: Job, answer: SuccessAnswer) {
    answer.Claimed? || (answer.AlreadySuccess? && j.event.None?)
  }

  function Finished(db: Database, j: Job, answer: SuccessAnswer): Database {
    var committed := Committed(db, j, answer);
    if Settles(j, answer) then HealedBy(committed, j.payment) else committed
  }

  /** A whole claim with its order step; one that is rolled back leaves everything as it was. */
  function ClaimedOn(db: Database, j: Job): Database {
    match VerdictOn(db, j)
    case Decided(answer) => Finished(db, j, answer)
    case _ => db
  }

  function OrderAfter(db: Database, j: Job, answer: SuccessAnswer): OrderOutcome {
    HealingOutcome(Committed(db, j, answer), j.payment)
  }

  // ---------- The webhook ----------

  function WebhookAnswer(answer: SuccessAnswer, order: OrderOutcome): WebhookOutcome {
    match answer
    case Claimed => Processed(order)
    case AlreadySuccess => Ignored(PaymentAlreadyTerminal)
    case AlreadyTerminalOther => Ignored(ContradictsTerminalState)
    case Superseded => Ignored(OrderAlreadySettled)
  }

  /** The answer for a claimed delivery: a unique violation is taken for a repeated delivery. */
  function DeliveryAnswer(db: Database, j: Job): WebhookOutcome {
    match VerdictOn(db, j)
    case Decided(answer) => WebhookAnswer(answer, OrderAfter(db, j, answer))
    case _ => Duplicate
  }

  /** The answer for a delivery that a gate refused. */
  function Refusal(rows: seq<Payment>, d: Delivery, reply: Option<Answer>): WebhookOutcome {
    if !d.chargeSuccess then RecordedOnly
    else
      match Locate(rows, d)
      case Found(p) =>
        (match JudgeWebhook(rows[p], d, reply)
         case AmountMismatch => RefusedAmount
         case CurrencyMismatch => RefusedCurrency
         case _ => VerificationFailed)
      case _ => UnknownReference
  }

  /** One delivery: a recorded event recovers, a refused one is recorded, an accepted one is claimed and finished. */
  function DeliveredTo(db: Database, d: Delivery, reply: Option<Answer>): Database {
    var seen := Seen(db.payments, d, reply);
    var p := AcceptedFor(db.payments, d, reply);
    if d.event in db.events then
      if RecoverableIn(seen).Some? then RecoveredBy(db, RecoverableIn(seen).value) else db
    else if p.None? then db.(events := db.events[d.event := RefusalRow(seen)])
    else ClaimedOn(db, WebhookJob(seen, p.value))
  }

  function DeliveryOutcome(db: Database, d: Delivery, reply: Option<Answer>): WebhookOutcome {
    var p := AcceptedFor(db.payments, d, reply);
    if d.event in db.events then Duplicate
    else if p.None? then Refusal(db.payments, d, reply)
    else DeliveryAnswer(db, WebhookJob(Seen(db.payments, d, reply), p.value))
  }

  /** The gates accept the delivery and its payment could settle, but its transaction has settled another. */
  predicate RefusedAsSpent(db: Database, d: Delivery, reply: Option<Answer>) {
    var p := AcceptedFor(db.payments, d, reply);
    p.Some? && Winnable(db, p.value) && SpentElsewhere(db.payments, p.value, d.transactionId, reply.value.reference)
  }

  // ---------- The status check ----------

  /** The first reply that is not a rejection. */
  function Asked(refs: seq<Reference>, provider: Reference -> ProviderReply): ProviderReply {
    if refs == [] then Rejected
    else if provider(refs[0]).Rejected? then Asked(refs[1..], provider) else provider(refs[0])
  }

  function CheckJob(db: Database, p: nat, answer: Answer, id: Option<TransactionId>): Job
    requires p < |db.payments|
  {
    Job(p, db.payments[p], None, answer, id, None)
  }

  function FailedBy(db: Database, p: nat, to: P.PaymentStatus): Database {
    if p < |db.payments| && P.Claimable(db.payments[p].status) then
      db.(payments := db.payments[p := FailedRow(db.payments[p], to)])
    else db
  }

  /** The provider answered about an open row: settle it, fail it, or leave it. */
  function ActedOn(db: Database, p: nat, answer: Answer, id: Option<TransactionId>): Database
    requires p < |db.payments|
  {
    match JudgeStatus(db.payments[p], answer)
    case StatusAccepted => ClaimedOn(db, CheckJob(db, p, answer, id))
    case ReportedFailure => FailedBy(db, p, P.FAILED)
    case _ => db
  }

  function StatusAnswer(answer: SuccessAnswer, order: OrderOutcome): StatusOutcome {
    match answer
    case Claimed => VerifiedSuccess(true, order)
    case AlreadySuccess => VerifiedSuccess(false, order)
    case AlreadyTerminalOther => VerifiedFailed(false)
    case Superseded => SupersededBySibling
  }

  /** The answer for a claimed check: a unique violation is thrown. */
  function CheckAnswer(db: Database, j: Job): StatusOutcome {
    match VerdictOn(db, j)
    case Decided(answer) => StatusAnswer(answer, OrderAfter(db, j, answer))
    case _ => CheckThrew
  }

  function ActOutcome(db: Database, p: nat, answer: Answer, id: Option<TransactionId>): StatusOutcome
    requires p < |db.payments|
  {
    match JudgeStatus(db.payments[p], answer)
    case StillPending => StillWaiting
    case ReportedFailure => VerifiedFailed(P.Claimable(db.payments[p].status))
    case StatusAccepted => CheckAnswer(db, CheckJob(db, p, answer, id))
    case _ => Mismatch
  }

  function CheckedBy(db: Database, p: nat, provider: Reference -> ProviderReply): Database {
    if p >= |db.payments| || !db.payments[p].paystack then db
    else if Settled(db, p) then HealedBy(db, p)
    else if !P.Claimable(db.payments[p].status) then db
    else
      match Asked(VerificationReferences(db.payments[p]), provider)
      case Answered(answer, id) => ActedOn(db, p, answer, id)
      case _ => db
  }

  function CheckOutcome(db: Database, p: nat, provider: Reference -> ProviderReply): StatusOutcome {
    if p >= |db.payments| then NotFound
    else if !db.payments[p].paystack then ProviderRetired
    else if Settled(db, p) then AlreadySettled(HealingOutcome(db, p))
    else if !P.Claimable(db.payments[p].status) then AlreadyTerminal
    else
      match Asked(VerificationReferences(db.payments[p]), provider)
      case Answered(answer, id) => ActOutcome(db, p, answer, id)
      case Rejected => RejectedByProvider
      case Failed => Unavailable
  }

  // ---------- The cancellation ----------

  function CancelledBy(db: Database, o: nat): Database
    requires o < |db.orders| && AllListed(db.orders[o].items, db.stock)
  {
    var order := db.orders[o];
    db.(orders := db.orders[o := order.(status := O.CANCELLED, history := order.history + [O.CANCELLED])],
        stock := Restock(db.stock, order.items))
  }

  // ---------- What the effects promise ----------

  /**
   A fresh delivery that passes the gates settles its payment exactly when the payment is open, its order has no other
   success, and its transaction has settled no other payment; then the event says so, and the order is PAID if it was
   waiting for exactly this amount. When only the last fails, the delivery is answered `duplicate`, leaves no trace, and
   its event stays unrecorded.
   */
  lemma FreshDeliverySettles(db: Database, d: Delivery, reply: Option<Answer>, p: nat)
    requires PaymentsOk(db) && AcceptedFor(db.payments, d, reply) == Some(p) && d.event !in db.events
    ensures
      var after, o := DeliveredTo(db, d, reply), db.payments[p].order;
      var spent := SpentElsewhere(db.payments, p, d.transactionId, reply.value.reference);
      && p < |after.payments| && o < |after.orders| == |db.orders|
      && (d.event in after.events <==> !(Winnable(db, p) && spent))
      && (d.event in after.events ==> (after.events[d.event].status == PROCESSED <==> Winnable(db, p)))
      && (P.Claimable(db.payments[p].status) ==> (after.payments[p].status == P.SUCCESS <==> Winnable(db, p) && !spent))
      && (Winnable(db, p) && spent ==> after == db && DeliveryOutcome(db, d, reply) == Duplicate)
      && (Winnable(db, p) && !spent ==>
            && after.payments[p].transactionId == d.transactionId
            && var order := db.orders[o];
               after.orders[o].status
               == if order.status == O.PENDING && db.payments[p].amountCents == order.totalCents then O.PAID
                  else order.status)
  {
    var job := WebhookJob(Seen(db.payments, d, reply), p);
    assert PaymentOk(db, db.payments[p]);
    ClashMeansSpent(db, job);
    if VerdictOn(db, job).Decided? {
      assert d.event in Committed(db, job, VerdictOn(db, job).answer).events;
    }
  }

  /**
   `duplicate` is answered for a recorded event and for a spent transaction, and for nothing else. So the answer means
   that the event is recorded exactly when it was recorded before: a spent transaction is never put on record.
   */
  lemma WhatDuplicateMeans(db: Database, d: Delivery, reply: Option<Answer>)
    requires PaymentsOk(db)
    ensures
      var after, outcome := DeliveredTo(db, d, reply), DeliveryOutcome(db, d, reply);
      && (outcome == Duplicate <==> d.event in db.events || RefusedAsSpent(db, d, reply))
      && (outcome == Duplicate ==> (d.event in after.events <==> d.event in db.events))
      && (outcome != Duplicate ==> d.event in after.events)
  {
    var p := AcceptedFor(db.payments, d, reply);
    if d.event !in db.events && p.Some? {
      FreshDeliverySettles(db, d, reply, p.value);
      assert PaymentOk(db, db.payments[p.value]);
      ClashMeansSpent(db, WebhookJob(Seen(db.payments, d, reply), p.value));
    }
  }

  /**
   A delivery about a payment whose order is still waiting heals the order exactly when its event id was recorded
   before: whether the gates would accept or refuse it makes no difference.
   */
  lemma OnlyRecordedDeliveriesHeal(db: Database, d: Delivery, reply: Option<Answer>, p: nat)
    requires d.chargeSuccess && Locate(db.payments, d) == Found(p) && WaitingFor(db, p)
    ensures
      var after := DeliveredTo(db, d, reply);
      && |after.orders| == |db.orders|
      && (after.orders[db.payments[p].order].status == O.PAID <==> d.event in db.events)
  {
  }

  /**
   An accepted status check of an open payment settles it, and heals its order, exactly when the order has no success
   and the transaction has settled no other payment; when only the last fails the check throws and changes nothing.
   */
  lemma AcceptedCheckSettles(db: Database, p: nat, answer: Answer, id: Option<TransactionId>)
    requires PaymentsOk(db) && p < |db.payments| && P.Claimable(db.payments[p].status)
    requires JudgeStatus(db.payments[p], answer) == StatusAccepted
    ensures
      var after, o := ActedOn(db, p, answer, id), db.payments[p].order;
      var spent := SpentElsewhere(db.payments, p, id, answer.reference);
      && p < |after.payments| && o < |after.orders| == |db.orders|
      && (after.payments[p].status == P.SUCCESS <==> NoSuccess(db, o) && !spent)
      && (NoSuccess(db, o) && !spent ==> !WaitingFor(after, p) && after.payments[p].transactionId == id)
      && (NoSuccess(db, o) && spent <==> ActOutcome(db, p, answer, id) == CheckThrew)
      && (NoSuccess(db, o) && spent ==> after == db)
      && after.events == db.events
  {
    assert PaymentOk(db, db.payments[p]);
    ClashMeansSpent(db, CheckJob(db, p, answer, id));
  }

  /** Neither channel revives a cancelled order or touches any order but to pay a waiting one. */
  lemma DeliveriesOnlyHeal(db: Database, d: Delivery, reply: Option<Answer>, o: nat)
    requires o < |db.orders|
    ensures |DeliveredTo(db, d, reply).orders| == |db.orders|
    ensures SameOrHealed(db.orders[o], DeliveredTo(db, d, reply).orders[o])
  {
    hide Locate, AcceptedFor;
  }

  lemma ChecksOnlyHeal(db: Database, p: nat, provider: Reference -> ProviderReply, o: nat)
    requires o < |db.orders|
    ensures |CheckedBy(db, p, provider).orders| == |db.orders|
    ensures SameOrHealed(db.orders[o], CheckedBy(db, p, provider).orders[o])
  {
    hide Asked, JudgeStatus;
  }

  /** A delivery answered `duplicate`, like a check of a settled payment, made twice in a row does no more than once. */
  lemma SecondRunChangesNothing(db: Database, d: Delivery, reply: Option<Answer>, p: nat,
                                provider: Reference -> ProviderReply)
    requires PaymentsOk(db)
    ensures DeliveryOutcome(db, d, reply) == Duplicate ==>
              DeliveredTo(DeliveredTo(db, d, reply), d, reply) == DeliveredTo(db, d, reply)
    ensures Settled(db, p) ==> CheckedBy(CheckedBy(db, p, provider), p, provider) == CheckedBy(db, p, provider)
  {
    WhatDuplicateMeans(db, d, reply);
  }
}
