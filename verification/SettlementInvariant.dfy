/**
 What every reachable state of the settlement protocol keeps, and the proof that every step keeps it.
 */
module SettlementInvariant {
  import opened Options
  import opened SettlementGate
  import opened SettlementMachine
  import opened Stock
  import P = PaymentLifecycle
  import O = OrderLifecycle

  // ---------- Facts about the committed rows ----------

  predicate Settled(db: Database, p: nat) {
    p < |db.payments| && db.payments[p].status == P.SUCCESS
  }

  /** Payment p is collected money for exactly the total of order o. */
  predicate Pays(db: Database, p: nat, o: nat) {
    Settled(db, p) && o < |db.orders| && db.payments[p].order == o
      && db.payments[p].amountCents == db.orders[o].totalCents
  }

  predicate PaymentOk(db: Database, row: Payment) {
    && row.order < |db.orders|
    && IsColumnInt(row.amountCents)
    && P.IsPath(row.history)
    && row.history[|row.history| - 1] == row.status
    && (row.status == P.SUCCESS ==>
          row.settledBy.Some? && Corroborates(row, row.settledBy.value) && ShowsReference(row, row.settledBy.value))
    && (row.status != P.SUCCESS ==> row.transactionId.None? && row.settledReference.None?)
  }

  /** The unique reference column carries the reference the row was settled on. */
  predicate ShowsReference(row: Payment, answer: Answer) {
    answer.reference != "" ==> row.settledReference == Some(answer.reference)
  }

  predicate PaymentsOk(db: Database) {
    forall p :: 0 <= p < |db.payments| ==> PaymentOk(db, db.payments[p])
  }

  /** One effective successful payment per order. */
  predicate OneSuccess(db: Database) {
    forall p, q :: 0 <= p < q < |db.payments| && db.payments[p].order == db.payments[q].order
      ==> !(db.payments[p].status == P.SUCCESS && db.payments[q].status == P.SUCCESS)
  }

  /** No two rows have the same entry in a unique index. */
  ghost predicate UniqueColumns(db: Database) {
    forall p, q, r :: 0 <= p < q < |db.payments| ==> !(HoldsKey(db.payments[p], r) && HoldsKey(db.payments[q], r))
  }

  ghost predicate OrderOk(db: Database, o: nat)
    requires o < |db.orders|
  {
    && O.IsPath(db.orders[o].history)
    && db.orders[o].history[|db.orders[o].history| - 1] == db.orders[o].status
    && (O.Collected(db.orders[o].status) ==> exists p: nat :: Pays(db, p, o))
  }

  ghost predicate OrdersOk(db: Database) {
    forall o :: 0 <= o < |db.orders| ==> OrderOk(db, o)
  }

  // ---------- Replies and events ----------

  predicate Won(reply: Reply) {
    if reply.SuccessReply? then reply.answer.Claimed? else reply.claimed
  }

  predicate SettledSibling(db: Database, q: nat, p: nat) {
    q != p && p < |db.payments| && Settled(db, q) && db.payments[q].order == db.payments[p].order
  }

  /** What a claim's answer asserts about the payment. Every answer stays true once it is. */
  ghost predicate AnswerTrue(db: Database, p: nat, answer: SuccessAnswer)
    requires p < |db.payments|
  {
    match answer
    case Claimed => db.payments[p].status == P.SUCCESS
    case AlreadySuccess => db.payments[p].status == P.SUCCESS
    case AlreadyTerminalOther => P.Terminal(db.payments[p].status) && db.payments[p].status != P.SUCCESS
    case Superseded => exists q: nat :: SettledSibling(db, q, p)
  }

  /** The event row says what a claim of payment p with this answer did. */
  predicate Reports(row: EventRow, p: nat, answer: SuccessAnswer) {
    row.payment == Some(p) && row.chargeSuccess && row.status == if answer.Claimed? then PROCESSED else IGNORED
  }

  ghost predicate ReplyTrue(db: Database, reply: Reply) {
    && reply.payment < |db.payments|
    && match reply
       case SuccessReply(p, a, e) =>
         && AnswerTrue(db, p, a)
         && (e.Some? ==> e.value in db.events && Reports(db.events[e.value], p, a))
       case FailureReply(p, to, claimed) =>
         if claimed then (to == P.FAILED || to == P.CANCELLED) && db.payments[p].status == to
           else P.Terminal(db.payments[p].status)
  }

  ghost predicate RepliesTrue(s: State) {
    forall i :: 0 <= i < |s.replies| ==> ReplyTrue(s.db, s.replies[i])
  }

  /** No two replies both won the same payment, and no two report the same event. */
  predicate RepliesDistinct(s: State) {
    forall i, j :: 0 <= i < j < |s.replies| ==>
      && !(Won(s.replies[i]) && Won(s.replies[j]) && s.replies[i].payment == s.replies[j].payment)
      && !(ReportsSomeEvent(s.replies[i]) && ReportsSomeEvent(s.replies[j]) && s.replies[i].event == s.replies[j].event)
  }

  predicate ReportsSomeEvent(reply: Reply) {
    reply.SuccessReply? && reply.event.Some?
  }

  predicate WonAt(s: State, i: nat, p: nat) {
    i < |s.replies| && Won(s.replies[i]) && s.replies[i].payment == p
  }

  predicate ReportedAt(s: State, i: nat, e: EventId) {
    i < |s.replies| && s.replies[i].SuccessReply? && s.replies[i].event == Some(e)
  }

  /** A payment is only ever ended by a claim that won it. */
  ghost predicate EndsAreWon(s: State) {
    forall p :: 0 <= p < |s.db.payments| && P.Terminal(s.db.payments[p].status) ==> exists i: nat :: WonAt(s, i, p)
  }

  /** What the webhook judged were rows of this database as they once stood, and a delivery of this very event. */
  predicate SeenOk(db: Database, e: EventId, seen: Seen) {
    seen.delivery.event == e && PaymentsEvolve(seen.rows, db.payments)
  }

  predicate Refuses(seen: Seen) {
    AcceptedFor(seen.rows, seen.delivery, seen.reply).None?
  }

  /** A committed charge event is FAILED by a gate, or carries the verdict of the one claim that reported it. */
  ghost predicate EventOk(s: State, e: EventId)
    requires e in s.db.events
  {
    var row := s.db.events[e];
    && row.status != RECEIVED
    && SeenOk(s.db, e, row.seen)
    && row.chargeSuccess == row.seen.delivery.chargeSuccess
    && (row.chargeSuccess ==> (row.status == EVENT_FAILED <==> Refuses(row.seen)))
    && (row.chargeSuccess && row.status != EVENT_FAILED ==> exists i: nat :: ReportedAt(s, i, e))
    && (!row.chargeSuccess ==> row.status == PROCESSED)
  }

  ghost predicate EventsOk(s: State) {
    forall e :: e in s.db.events ==> EventOk(s, e)
  }

  // ---------- Stock ----------

  function Held(order: Order, product: nat): nat {
    if order.status == O.CANCELLED then 0 else Units(order.items, product)
  }

  /** Units of a listing that its non-cancelled orders hold. */
  function Reserved(orders: seq<Order>, product: nat): nat {
    if orders == [] then 0 else Reserved(orders[..|orders| - 1], product) + Held(orders[|orders| - 1], product)
  }

  predicate Conserved(s: State) {
    && |s.db.stock| == |s.opening|
    && forall k :: 0 <= k < |s.opening| ==> s.db.stock[k] + Reserved(s.db.orders, k) == s.opening[k]
  }

  // ---------- Clients inside a transaction ----------

  predicate Owns(s: State, r: Resource, c: ClientId) {
    r in s.owner && s.owner[r] == c
  }

  /** The stale row agrees with the stored one on the columns no statement changes. */
  predicate JobOk(db: Database, j: Job) {
    && j.payment < |db.payments|
    && j.row.order == db.payments[j.payment].order < |db.orders|
    && j.row.amountCents == db.payments[j.payment].amountCents
    && j.row.currency == db.payments[j.payment].currency
    && j.row.customerReference == db.payments[j.payment].customerReference
    && Corroborates(j.row, j.answer)
    && (j.event.Some? ==> j.seen.Some? && SeenOk(db, j.event.value, j.seen.value) && !Refuses(j.seen.value))
  }

  predicate EventPending(s: State, c: ClientId, j: Job) {
    j.event.Some? ==> Owns(s, EventKey(j.event.value), c) && j.event.value !in s.db.events
  }

  predicate InGate(s: State, c: ClientId, j: Job) {
    JobOk(s.db, j) && EventPending(s, c, j) && Owns(s, AdvisoryKey(s, j), c)
  }

  /** The uncommitted success: the row is locked and still claimable, and the order has no other success. */
  predicate MayCommitSuccess(s: State, c: ClientId, j: Job) {
    && InGate(s, c, j)
    && Owns(s, PaymentRow(j.payment), c)
    && P.Claimable(s.db.payments[j.payment].status)
    && NoSuccess(s.db, j.row.order)
    && !Clashes(s.db, j)
    && forall r :: r in KeysOf(j) ==> Owns(s, r, c)
  }

  ghost predicate DecisionOk(s: State, c: ClientId, j: Job, a: SuccessAnswer) {
    InGate(s, c, j) && (if a.Claimed? then MayCommitSuccess(s, c, j) else AnswerTrue(s.db, j.payment, a))
  }

  predicate OrderLocked(s: State, c: ClientId, o: nat, status: O.OrderStatus) {
    o < |s.db.orders| && Owns(s, OrderRow(o), c) && s.db.orders[o].status == status
  }

  ghost predicate ClientOk(s: State, c: ClientId, pc: Pc) {
    match pc
    case Idle => true
    case Recording(e, entry, recover) =>
      && (recover.Some? ==> recover.value < |s.db.payments|)
      && entry.status == (if entry.chargeSuccess then EVENT_FAILED else PROCESSED)
      && SeenOk(s.db, e, entry.seen) && Refuses(entry.seen)
      && entry.chargeSuccess == entry.seen.delivery.chargeSuccess
    case Recovering(p) => p < |s.db.payments|
    case ClaimBegun(j) => JobOk(s.db, j)
    case ClaimRecorded(j) => JobOk(s.db, j) && EventPending(s, c, j)
    case ClaimLocked(j) => InGate(s, c, j)
    case ClaimChecked(j) => InGate(s, c, j) && s.db.payments[j.payment].status != P.SUCCESS
    case ClaimClear(j) => InGate(s, c, j) && NoSuccess(s.db, j.row.order)
    case ClaimLost(j) => InGate(s, c, j) && P.Terminal(s.db.payments[j.payment].status)
    case ClaimDecided(j, a) => DecisionOk(s, c, j, a)
    case ClaimMarked(j, a) => DecisionOk(s, c, j, a)
    case FailBegun(p, stale, to) =>
      && p < |s.db.payments|
      && (to == P.FAILED || to == P.CANCELLED)
      && (P.Terminal(stale) ==> s.db.payments[p].status == stale)
    case FailDecided(p, to, claimed) =>
      && p < |s.db.payments|
      && (to == P.FAILED || to == P.CANCELLED)
      && if claimed then Owns(s, PaymentRow(p), c) && P.Claimable(s.db.payments[p].status)
         else P.Terminal(s.db.payments[p].status)
    case Settling(p) => Settled(s.db, p)
    case PayRead(p) => Settled(s.db, p) && Pays(s.db, p, s.db.payments[p].order)
    case PayClaimed(p) =>
      && Settled(s.db, p)
      && Pays(s.db, p, s.db.payments[p].order)
      && OrderLocked(s, c, s.db.payments[p].order, O.PENDING)
    case CancelRead(o) => o < |s.db.orders|
    case Restoring(o, items, done) =>
      && OrderLocked(s, c, o, O.PENDING)
      && items == s.db.orders[o].items
      && done <= |items|
      && AllListed(items[..done], s.db.stock)
    case FulfilRead(o, from, step) => o < |s.db.orders| && O.FulfilmentStep(step) && O.CanTransition(from, step)
    case FulfilClaimed(o, from, step) =>
      && OrderLocked(s, c, o, from)
      && O.FulfilmentStep(step)
      && O.CanTransition(from, step)
  }

  ghost predicate ClientsOk(s: State) {
    forall c :: c in s.clients ==> ClientOk(s, c, s.clients[c])
  }

  ghost predicate DataOk(s: State) {
    && PaymentsOk(s.db)
    && OneSuccess(s.db)
    && UniqueColumns(s.db)
    && OrdersOk(s.db)
    && RepliesTrue(s)
    && RepliesDistinct(s)
    && EndsAreWon(s)
    && EventsOk(s)
    && Conserved(s)
  }

  ghost predicate Inv(s: State) {
    DataOk(s) && ClientsOk(s)
  }

  // ---------- What no step undoes ----------

  predicate SameIdentity(a: Payment, b: Payment) {
    a.order == b.order && a.paystack == b.paystack && a.amountCents == b.amountCents && a.currency == b.currency
    && a.customerReference == b.customerReference
  }

  predicate PaymentsEvolve(before: seq<Payment>, after: seq<Payment>) {
    && |before| <= |after|
    && forall p :: 0 <= p < |before| ==>
         && SameIdentity(before[p], after[p])
         && before[p].history <= after[p].history
         && (P.Terminal(before[p].status) ==> after[p] == before[p])
  }

  predicate OrdersEvolve(before: seq<Order>, after: seq<Order>) {
    && |before| <= |after|
    && forall o :: 0 <= o < |before| ==>
         && before[o].totalCents == after[o].totalCents
         && before[o].items == after[o].items
         && before[o].lockKey == after[o].lockKey
         && before[o].history <= after[o].history
         && (O.Collected(before[o].status) ==> O.Collected(after[o].status))
         && (before[o].status == O.CANCELLED ==> after[o] == before[o])
         && (after[o].status == O.PENDING ==> before[o] == after[o])
  }

  /** The order is what it was, except that it may have gone from PENDING to PAID. */
  predicate SameOrHealed(a: Order, b: Order) {
    b == a || (a.status == O.PENDING && b == a.(status := O.PAID, history := a.history + [O.PAID]))
  }

  predicate EventsEvolve(before: map<EventId, EventRow>, after: map<EventId, EventRow>) {
    forall e :: e in before ==> e in after && after[e] == before[e]
  }

  predicate Evolves(a: Database, b: Database) {
    && PaymentsEvolve(a.payments, b.payments)
    && OrdersEvolve(a.orders, b.orders)
    && |a.stock| == |b.stock|
    && EventsEvolve(a.events, b.events)
  }

  predicate Later(s: State, t: State) {
    && Evolves(s.db, t.db)
    && s.opening == t.opening
    && s.replies <= t.replies
  }

  lemma LaterTrans(a: State, b: State, c: State)
    requires Later(a, b) && Later(b, c)
    ensures Later(a, c)
  {
  }
}
