/**
 The settlement protocol as interleaved small steps.

 Any number of clients (webhook deliveries, status checks, failure claims, buyer cancellations,
 fulfilment calls) run against one database. Each client is a program whose position and locals are
 its `Pc`. One step is one statement of one client, so transactions of different clients interleave
 statement by statement. The database is READ COMMITTED: a statement sees what is committed when it
 runs, and a transaction's own writes become visible to the others only when it commits. Row locks,
 unique keys and the advisory lock are entries of one table, taken by a statement and released when
 the transaction ends. A step that has to wait, or that does not apply, changes nothing.
 */
module SettlementMachine {
  import opened Options
  import opened SettlementGate
  import opened Stock
  import P = PaymentLifecycle
  import O = OrderLifecycle

  type ClientId = nat
  type EventId = string

  // ---------- The database ----------

  /** `lockKey` is the order's advisory-lock key, a hash of its id; two orders may share one. */
  datatype Order = Order(
    status: O.OrderStatus,
    totalCents: int,
    items: seq<Item>,
    lockKey: int,
    history: seq<O.OrderStatus>)

  datatype ProcessingStatus = RECEIVED | PROCESSED | IGNORED | EVENT_FAILED

  /** What a webhook call judged: the rows as it read them, the delivery, and the provider's reply. Bookkeeping. */
  datatype Seen = Seen(rows: seq<Payment>, delivery: Delivery, reply: Option<Answer>)

  datatype EventRow = EventRow(payment: Option<nat>, chargeSuccess: bool, status: ProcessingStatus, seen: Seen)

  /** Rows are numbered in creation order. `payment_events` is keyed by the unique provider event id. */
  datatype Database = Database(
    payments: seq<Payment>,
    orders: seq<Order>,
    stock: seq<int>,
    events: map<EventId, EventRow>)

  datatype Resource =
    | AdvisoryLock(key: int)
    | PaymentRow(payment: nat)
    | OrderRow(order: nat)
    | EventKey(event: EventId)
    | TransactionKey(id: TransactionId)      // entries of the two unique indexes of `payments`
    | ReferenceKey(reference: Reference)

  // ---------- The clients ----------

  datatype SuccessAnswer = Claimed | AlreadySuccess | AlreadyTerminalOther | Superseded

  /** A success claim: the row as the caller read it before its transaction, and why it may settle. */
  datatype Job = Job(
    payment: nat,
    row: Payment,
    event: Option<EventId>,
    answer: Answer,
    transactionId: Option<TransactionId>,
    seen: Option<Seen>)

  datatype Pc =
    | Idle
      // handlePaystackWebhook: a standalone recordEvent, and what a duplicate does next
    | Recording(event: EventId, entry: EventRow, recover: Option<nat>)
    | Recovering(p: nat)
      // claimPaymentSuccess, inside its transaction
    | ClaimBegun(job: Job)
    | ClaimRecorded(job: Job)                          // event row inserted
    | ClaimLocked(job: Job)                            // advisory lock held
    | ClaimChecked(job: Job)                           // re-read row is claimable
    | ClaimClear(job: Job)                             // no settled sibling
    | ClaimLost(job: Job)                              // conditional update matched nothing
    | ClaimDecided(job: Job, answer: SuccessAnswer)    // if Claimed: SUCCESS written
    | ClaimMarked(job: Job, answer: SuccessAnswer)     // event row marked
      // claimPaymentFailure
    | FailBegun(p: nat, stale: P.PaymentStatus, to: P.PaymentStatus)
    | FailDecided(p: nat, to: P.PaymentStatus, claimed: bool)
      // markOrderPaidForPayment, for the order of payment p
    | Settling(p: nat)
    | PayRead(p: nat)
    | PayClaimed(p: nat)                               // PAID written
      // cancelOrder
    | CancelRead(o: nat)
    | Restoring(o: nat, items: seq<Item>, done: nat)   // CANCELLED written, items[..done] returned
      // markOrderFulfilled
    | FulfilRead(o: nat, from: O.OrderStatus, step: O.OrderStatus)
    | FulfilClaimed(o: nat, from: O.OrderStatus, step: O.OrderStatus)

  /** The answers that claims have returned, in commit order. */
  datatype Reply =
    | SuccessReply(payment: nat, answer: SuccessAnswer, event: Option<EventId>)
    | FailureReply(payment: nat, to: P.PaymentStatus, claimed: bool)

  datatype State = State(
    db: Database,
    opening: seq<int>,
    clients: map<ClientId, Pc>,
    owner: map<Resource, ClientId>,
    replies: seq<Reply>)

  function At(s: State, c: ClientId): Pc {
    if c in s.clients then s.clients[c] else Idle
  }

  function Go(s: State, c: ClientId, pc: Pc): State {
    s.(clients := s.clients[c := pc])
  }

  predicate Free(s: State, r: Resource, c: ClientId) {
    r in s.owner ==> s.owner[r] == c
  }

  function Take(s: State, r: Resource, c: ClientId): State {
    s.(owner := s.owner[r := c])
  }

  function TakeAll(s: State, keys: set<Resource>, c: ClientId): State {
    s.(owner := map r | r in s.owner.Keys + keys :: if r in keys then c else s.owner[r])
  }

  /** End of a transaction, by commit or rollback: every lock of c is released. */
  function EndTransaction(s: State, c: ClientId, pc: Pc): State {
    Go(s.(owner := map r | r in s.owner && s.owner[r] != c :: s.owner[r]), c, pc)
  }

  predicate NoSuccess(db: Database, o: nat) {
    forall p :: 0 <= p < |db.payments| ==> !(db.payments[p].order == o && db.payments[p].status == P.SUCCESS)
  }

  // ---------- Rows other services create ----------

  /** Checkout, in one transaction: a PENDING order, with its units taken out of stock. */
  function PlaceOrder(s: State, totalCents: int, items: seq<Item>, lockKey: int): State {
    var order := Order(O.PENDING, totalCents, items, lockKey, [O.PENDING]);
    s.(db := s.db.(orders := s.db.orders + [order], stock := Reserve(s.db.stock, items)))
  }

  /** A new attempt for an existing order. Its amount need not be the order's total. */
  function CreatePayment(s: State, o: nat, paystack: bool, amountCents: int, currency: Currency,
                         reference: Reference): State {
    if o >= |s.db.orders| || !IsColumnInt(amountCents) then s else
    var row := Payment(o, paystack, amountCents, currency, reference, None, None, None, P.PENDING, [P.PENDING], None);
    s.(db := s.db.(payments := s.db.payments + [row]))
  }

  /**
   The route's answer to initialising a transaction, a single conditional update on PENDING rows:
   accepted (PROCESSING, echoed reference stored) or unclear (stored metadata reset).
   */
  function Initialised(s: State, p: nat, echoed: Option<Reference>): State {
    if p >= |s.db.payments| || PaymentRow(p) in s.owner || s.db.payments[p].status != P.PENDING then s else
    var row := s.db.payments[p].(providerReference := echoed);
    var row' := if echoed.Some? then row.(status := P.PROCESSING, history := row.history + [P.PROCESSING]) else row;
    s.(db := s.db.(payments := s.db.payments[p := row']))
  }

  // ---------- handlePaystackWebhook ----------

  /** The row that records a delivery which goes no further. */
  function RefusalRow(seen: Seen): EventRow {
    if !seen.delivery.chargeSuccess then EventRow(None, false, PROCESSED, seen)
    else
      match Locate(seen.rows, seen.delivery)
      case Unknown => EventRow(None, true, EVENT_FAILED, seen)
      case Disagreement(q) => EventRow(Some(q), true, EVENT_FAILED, seen)
      case Found(p) => EventRow(Some(p), true, EVENT_FAILED, seen)
  }

  /** The payment a recorded delivery may still have to recover: the one it was found to be about. */
  function RecoverableIn(seen: Seen): Option<nat> {
    if !seen.delivery.chargeSuccess then None
    else
      match Locate(seen.rows, seen.delivery)
      case Found(p) => Some(p)
      case _ => None
  }

  function WebhookJob(seen: Seen, p: nat): Job
    requires p < |seen.rows| && seen.reply.Some?
  {
    Job(p, seen.rows[p], Some(seen.delivery.event), seen.reply.value, seen.delivery.transactionId, Some(seen))
  }

  /** Steps 3 to 7 of the pipeline: the claim may begin, or a refusal is to be recorded. */
  function Judged(rows: seq<Payment>, d: Delivery, reply: Option<Answer>): Pc {
    var seen := Seen(rows, d, reply);
    var p := AcceptedFor(rows, d, reply);
    if p.Some? then ClaimBegun(WebhookJob(seen, p.value)) else Recording(d.event, RefusalRow(seen), RecoverableIn(seen))
  }

  function Receive(s: State, c: ClientId, d: Delivery, reply: Option<Answer>): State {
    if At(s, c) != Idle then s else Go(s, c, Judged(s.db.payments, d, reply))
  }

  function RecordEvent(s: State, c: ClientId): State {
    match At(s, c)
    case Recording(e, entry, recover) =>
      if e in s.db.events then Go(s, c, if recover.Some? then Recovering(recover.value) else Idle)
      else if !Free(s, EventKey(e), c) then s
      else Go(s.(db := s.db.(events := s.db.events[e := entry])), c, Idle)
    case _ => s
  }

  /** recoveredDuplicate: re-read the payment; a SUCCESS one re-runs the order transition. */
  function Recover(s: State, c: ClientId): State {
    match At(s, c)
    case Recovering(p) =>
      if p < |s.db.payments| && s.db.payments[p].status == P.SUCCESS then Go(s, c, Settling(p)) else Go(s, c, Idle)
    case _ => s
  }

  // ---------- claimPaymentSuccess ----------

  /** The webhook's first statement inside the transaction. A taken event id rolls it back. */
  function InsertEvent(s: State, c: ClientId): State {
    match At(s, c)
    case ClaimBegun(j) =>
      if j.event.None? then s
      else if j.event.value in s.db.events then EndTransaction(s, c, Recovering(j.payment))
      else if !Free(s, EventKey(j.event.value), c) then s
      else Go(Take(s, EventKey(j.event.value), c), c, ClaimRecorded(j))
    case _ => s
  }

  function AdvisoryKey(s: State, j: Job): Resource {
    AdvisoryLock(if j.row.order < |s.db.orders| then s.db.orders[j.row.order].lockKey else 0)
  }

  function TakeAdvisoryLock(s: State, c: ClientId): State {
    var pc := At(s, c);
    if pc.ClaimRecorded? || (pc.ClaimBegun? && pc.job.event.None?) then
      var key := AdvisoryKey(s, pc.job);
      if Free(s, key, c) then Go(Take(s, key, c), c, ClaimLocked(pc.job)) else s
    else s
  }

  function RereadRow(s: State, c: ClientId): State {
    match At(s, c)
    case ClaimLocked(j) =>
      if j.payment >= |s.db.payments| then Go(s, c, ClaimDecided(j, AlreadyTerminalOther))
      else if s.db.payments[j.payment].status == P.SUCCESS then Go(s, c, ClaimDecided(j, AlreadySuccess))
      else if !P.Claimable(s.db.payments[j.payment].status) then Go(s, c, ClaimDecided(j, AlreadyTerminalOther))
      else Go(s, c, ClaimChecked(j))
    case _ => s
  }

  /** `findFirst` without an order may return any SUCCESS payment of the order: `pick` is the one it returned. */
  function ReadSibling(s: State, c: ClientId, pick: nat): State {
    match At(s, c)
    case ClaimChecked(j) =>
      if pick < |s.db.payments| && s.db.payments[pick].order == j.row.order
        && s.db.payments[pick].status == P.SUCCESS then
        Go(s, c, if pick != j.payment then ClaimDecided(j, Superseded) else ClaimClear(j))
      else if NoSuccess(s.db, j.row.order) then Go(s, c, ClaimClear(j))
      else s
    case _ => s
  }

  /** The row has this entry in a unique index. */
  predicate HoldsKey(row: Payment, r: Resource) {
    match r
    case TransactionKey(id) => row.transactionId == Some(id)
    case ReferenceKey(reference) => row.settledReference == Some(reference)
    case _ => false
  }

  /** A row other than p has it. */
  predicate TakenByAnother(rows: seq<Payment>, p: nat, r: Resource) {
    exists q :: 0 <= q < |rows| && q != p && HoldsKey(rows[q], r)
  }

  /** The index entries a claim writes: the reference it verified, and the transaction id unless its row had one. */
  function KeysOf(j: Job): set<Resource> {
    (if j.row.transactionId.None? && j.transactionId.Some? then {TransactionKey(j.transactionId.value)} else {})
    + (if j.answer.reference != "" then {ReferenceKey(j.answer.reference)} else {})
  }

  /** Another payment was settled on the same provider reference or transaction. */
  predicate Clashes(db: Database, j: Job) {
    exists r :: r in KeysOf(j) && TakenByAnother(db.payments, j.payment, r)
  }

  /**
   The conditional update. It writes two unique columns: a clash with a committed row rolls the transaction back,
   which the webhook takes for a duplicate delivery; one with an uncommitted row waits.
   */
  function CasSuccess(s: State, c: ClientId): State {
    match At(s, c)
    case ClaimClear(j) =>
      if j.payment >= |s.db.payments| || !P.Claimable(s.db.payments[j.payment].status) then Go(s, c, ClaimLost(j))
      else if !Free(s, PaymentRow(j.payment), c) then s
      else if Clashes(s.db, j) then EndTransaction(s, c, if j.event.Some? then Recovering(j.payment) else Idle)
      else if exists r :: r in KeysOf(j) && !Free(s, r, c) then s
      else Go(TakeAll(s, {PaymentRow(j.payment)} + KeysOf(j), c), c, ClaimDecided(j, Claimed))
    case _ => s
  }

  function ReadBack(s: State, c: ClientId): State {
    match At(s, c)
    case ClaimLost(j) =>
      var settled := j.payment < |s.db.payments| && s.db.payments[j.payment].status == P.SUCCESS;
      Go(s, c, ClaimDecided(j, if settled then AlreadySuccess else AlreadyTerminalOther))
    case _ => s
  }

  function MarkEvent(s: State, c: ClientId): State {
    match At(s, c)
    case ClaimDecided(j, a) => if j.event.Some? then Go(s, c, ClaimMarked(j, a)) else s
    case _ => s
  }

  /** The row a winning claim leaves. The stored metadata is the caller's stale copy, written back. */
  function SettledRow(row: Payment, j: Job): Payment {
    row.(
      status := P.SUCCESS,
      history := row.history + [P.SUCCESS],
      providerReference := j.row.providerReference,
      settledReference := if j.answer.reference != "" then Some(j.answer.reference) else row.settledReference,
      transactionId := if j.row.transactionId.None? && j.transactionId.Some? then j.transactionId
        else row.transactionId,
      settledBy := Some(j.answer))
  }

  function EventsAfter(events: map<EventId, EventRow>, j: Job, a: SuccessAnswer): map<EventId, EventRow> {
    if j.event.Some? && j.seen.Some? then
      events[j.event.value := EventRow(Some(j.payment), true, if a.Claimed? then PROCESSED else IGNORED, j.seen.value)]
    else events
  }

  function CommitClaim(s: State, c: ClientId): State {
    var pc := At(s, c);
    if pc.ClaimMarked? || (pc.ClaimDecided? && pc.job.event.None?) then
      var j, a := pc.job, pc.answer;
      if j.payment >= |s.db.payments| then EndTransaction(s, c, Idle) else
      var payments := if a.Claimed? then s.db.payments[j.payment := SettledRow(s.db.payments[j.payment], j)]
        else s.db.payments;
      var events := EventsAfter(s.db.events, j, a);
      var settles := a.Claimed? || (a.AlreadySuccess? && j.event.None?);
      EndTransaction(
        s.(db := s.db.(payments := payments, events := events),
           replies := s.replies + [SuccessReply(j.payment, a, j.event)]),
        c, if settles then Settling(j.payment) else Idle)
    else s
  }

  // ---------- verifyPaystackPaymentStatus ----------

  /** `answer` is the first non-rejected reply to the verification references. */
  function CheckStatus(s: State, c: ClientId, p: nat, answer: Answer, transactionId: Option<TransactionId>): State {
    if At(s, c) != Idle || p >= |s.db.payments| || !s.db.payments[p].paystack then s else
    var row := s.db.payments[p];
    if row.status == P.SUCCESS then Go(s, c, Settling(p))
    else if !P.Claimable(row.status) then s
    else
      match JudgeStatus(row, answer)
      case StatusAccepted => Go(s, c, ClaimBegun(Job(p, row, None, answer, transactionId, None)))
      case ReportedFailure => Go(s, c, FailBegun(p, row.status, P.FAILED))
      case _ => s
  }

  // ---------- claimPaymentFailure ----------

  /** Any caller of the failure claim, arriving with the row as it read it. */
  function StartFailure(s: State, c: ClientId, p: nat, to: P.PaymentStatus): State {
    if At(s, c) != Idle || p >= |s.db.payments| || !(to == P.FAILED || to == P.CANCELLED) then s
    else Go(s, c, FailBegun(p, s.db.payments[p].status, to))
  }

  function CasFailure(s: State, c: ClientId): State {
    match At(s, c)
    case FailBegun(p, stale, to) =>
      if !P.Claimable(stale) || p >= |s.db.payments| || !P.Claimable(s.db.payments[p].status)
        then Go(s, c, FailDecided(p, to, false))
      else if !Free(s, PaymentRow(p), c) then s
      else Go(Take(s, PaymentRow(p), c), c, FailDecided(p, to, true))
    case _ => s
  }

  function FailedRow(row: Payment, to: P.PaymentStatus): Payment {
    row.(status := to, history := row.history + [to])
  }

  function CommitFailure(s: State, c: ClientId): State {
    match At(s, c)
    case FailDecided(p, to, claimed) =>
      if p >= |s.db.payments| then EndTransaction(s, c, Idle) else
      var payments := if claimed then s.db.payments[p := FailedRow(s.db.payments[p], to)] else s.db.payments;
      EndTransaction(
        s.(db := s.db.(payments := payments), replies := s.replies + [FailureReply(p, to, claimed)]), c, Idle)
    case _ => s
  }

  // ---------- markOrderPaid, called by markOrderPaidForPayment ----------

  /** Read and validate. PAID is a no-op; any other illegal move, or a wrong amount, is an anomaly. */
  function ReadForPayment(s: State, c: ClientId): State {
    match At(s, c)
    case Settling(p) =>
      if p >= |s.db.payments| || s.db.payments[p].order >= |s.db.orders| then Go(s, c, Idle)
      else
        var order := s.db.orders[s.db.payments[p].order];
        if O.CanTransition(order.status, O.PAID) && s.db.payments[p].amountCents == order.totalCents
        then Go(s, c, PayRead(p)) else Go(s, c, Idle)
    case _ => s
  }

  function CasPaid(s: State, c: ClientId): State {
    match At(s, c)
    case PayRead(p) =>
      if p >= |s.db.payments| || s.db.payments[p].order >= |s.db.orders| then EndTransaction(s, c, Idle)
      else
        var o := s.db.payments[p].order;
        if s.db.orders[o].status != O.PENDING then EndTransaction(s, c, Idle)
        else if !Free(s, OrderRow(o), c) then s
        else Go(Take(s, OrderRow(o), c), c, PayClaimed(p))
    case _ => s
  }

  function WithStatus(s: State, o: nat, status: O.OrderStatus): State
    requires o < |s.db.orders|
  {
    var order := s.db.orders[o];
    s.(db := s.db.(orders := s.db.orders[o := order.(status := status, history := order.history + [status])]))
  }

  function CommitPaid(s: State, c: ClientId): State {
    match At(s, c)
    case PayClaimed(p) =>
      if p >= |s.db.payments| || s.db.payments[p].order >= |s.db.orders| then EndTransaction(s, c, Idle)
      else EndTransaction(WithStatus(s, s.db.payments[p].order, O.PAID), c, Idle)
    case _ => s
  }

  // ---------- cancelOrder ----------

  function ReadForCancel(s: State, c: ClientId, o: nat): State {
    if At(s, c) != Idle || o >= |s.db.orders| || !O.CanTransition(s.db.orders[o].status, O.CANCELLED) then s
    else Go(s, c, CancelRead(o))
  }

  function CasCancelled(s: State, c: ClientId): State {
    match At(s, c)
    case CancelRead(o) =>
      if o >= |s.db.orders| || s.db.orders[o].status != O.PENDING then EndTransaction(s, c, Idle)
      else if !Free(s, OrderRow(o), c) then s
      else Go(Take(s, OrderRow(o), c), c, Restoring(o, s.db.orders[o].items, 0))
    case _ => s
  }

  /** One turn of the restore loop. A listing that no longer exists rolls the whole cancellation back. */
  function RestoreItem(s: State, c: ClientId): State {
    match At(s, c)
    case Restoring(o, items, done) =>
      if done >= |items| then s
      else if items[done].product >= |s.db.stock| then EndTransaction(s, c, Idle)
      else Go(s, c, Restoring(o, items, done + 1))
    case _ => s
  }

  /** Increments are relative updates, so the committed stock gets all of them on top of what it is by then. */
  function CommitCancel(s: State, c: ClientId): State {
    match At(s, c)
    case Restoring(o, items, done) =>
      if o >= |s.db.orders| || done != |items| || !AllListed(items, s.db.stock) then s
      else
        var s' := WithStatus(s, o, O.CANCELLED);
        EndTransaction(s'.(db := s'.db.(stock := Restock(s.db.stock, items))), c, Idle)
    case _ => s
  }

  // ---------- markOrderFulfilled ----------

  function ReadForFulfilment(s: State, c: ClientId, o: nat, step: O.OrderStatus): State {
    if At(s, c) != Idle || o >= |s.db.orders| || !O.FulfilmentStep(step)
      || !O.CanTransition(s.db.orders[o].status, step) then s
    else Go(s, c, FulfilRead(o, s.db.orders[o].status, step))
  }

  function CasFulfilled(s: State, c: ClientId): State {
    match At(s, c)
    case FulfilRead(o, from, step) =>
      if o >= |s.db.orders| || s.db.orders[o].status != from then EndTransaction(s, c, Idle)
      else if !Free(s, OrderRow(o), c) then s
      else Go(Take(s, OrderRow(o), c), c, FulfilClaimed(o, from, step))
    case _ => s
  }

  function CommitFulfilled(s: State, c: ClientId): State {
    match At(s, c)
    case FulfilClaimed(o, from, step) =>
      if o >= |s.db.orders| then EndTransaction(s, c, Idle)
      else EndTransaction(WithStatus(s, o, step), c, Idle)
    case _ => s
  }

  // ---------- Failures ----------

  /** A crash, a timeout or a thrown error at any point: the open transaction is rolled back. */
  function Crash(s: State, c: ClientId): State {
    EndTransaction(s, c, Idle)
  }

  // ---------- Runs ----------

  datatype Step =
    | SPlaceOrder(totalCents: int, items: seq<Item>, lockKey: int)
    | SCreatePayment(order: nat, paystack: bool, amountCents: int, currency: Currency, reference: Reference)
    | SInitialised(payment: nat, echoed: Option<Reference>)
    | SReceive(c: ClientId, delivery: Delivery, reply: Option<Answer>)
    | SRecordEvent(c: ClientId)
    | SRecover(c: ClientId)
    | SInsertEvent(c: ClientId)
    | STakeAdvisoryLock(c: ClientId)
    | SRereadRow(c: ClientId)
    | SReadSibling(c: ClientId, pick: nat)
    | SCasSuccess(c: ClientId)
    | SReadBack(c: ClientId)
    | SMarkEvent(c: ClientId)
    | SCommitClaim(c: ClientId)
    | SCheckStatus(c: ClientId, payment: nat, answer: Answer, transactionId: Option<TransactionId>)
    | SStartFailure(c: ClientId, payment: nat, to: P.PaymentStatus)
    | SCasFailure(c: ClientId)
    | SCommitFailure(c: ClientId)
    | SReadForPayment(c: ClientId)
    | SCasPaid(c: ClientId)
    | SCommitPaid(c: ClientId)
    | SReadForCancel(c: ClientId, order: nat)
    | SCasCancelled(c: ClientId)
    | SRestoreItem(c: ClientId)
    | SCommitCancel(c: ClientId)
    | SReadForFulfilment(c: ClientId, order: nat, step: O.OrderStatus)
    | SCasFulfilled(c: ClientId)
    | SCommitFulfilled(c: ClientId)
    | SCrash(c: ClientId)

  function Apply(s: State, step: Step): State {
    match step
    case SPlaceOrder(t, items, k) => PlaceOrder(s, t, items, k)
    case SCreatePayment(o, paystack, amount, currency, reference) =>
      CreatePayment(s, o, paystack, amount, currency, reference)
    case SInitialised(p, echoed) => Initialised(s, p, echoed)
    case SReceive(c, d, reply) => Receive(s, c, d, reply)
    case SRecordEvent(c) => RecordEvent(s, c)
    case SRecover(c) => Recover(s, c)
    case SInsertEvent(c) => InsertEvent(s, c)
    case STakeAdvisoryLock(c) => TakeAdvisoryLock(s, c)
    case SRereadRow(c) => RereadRow(s, c)
    case SReadSibling(c, pick) => ReadSibling(s, c, pick)
    case SCasSuccess(c) => CasSuccess(s, c)
    case SReadBack(c) => ReadBack(s, c)
    case SMarkEvent(c) => MarkEvent(s, c)
    case SCommitClaim(c) => CommitClaim(s, c)
    case SCheckStatus(c, p, answer, transactionId) => CheckStatus(s, c, p, answer, transactionId)
    case SStartFailure(c, p, to) => StartFailure(s, c, p, to)
    case SCasFailure(c) => CasFailure(s, c)
    case SCommitFailure(c) => CommitFailure(s, c)
    case SReadForPayment(c) => ReadForPayment(s, c)
    case SCasPaid(c) => CasPaid(s, c)
    case SCommitPaid(c) => CommitPaid(s, c)
    case SReadForCancel(c, o) => ReadForCancel(s, c, o)
    case SCasCancelled(c) => CasCancelled(s, c)
    case SRestoreItem(c) => RestoreItem(s, c)
    case SCommitCancel(c) => CommitCancel(s, c)
    case SReadForFulfilment(c, o, step) => ReadForFulfilment(s, c, o, step)
    case SCasFulfilled(c) => CasFulfilled(s, c)
    case SCommitFulfilled(c) => CommitFulfilled(s, c)
    case SCrash(c) => Crash(s, c)
  }

  /** The step belongs to no client. */
  predicate IsSystemStep(step: Step) {
    step.SPlaceOrder? || step.SCreatePayment? || step.SInitialised?
  }

  /** One schedule of any length: the state after its steps. */
  function Run(s: State, steps: seq<Step>): State
    decreases |steps|
  {
    if steps == [] then s else Apply(Run(s, steps[..|steps| - 1]), steps[|steps| - 1])
  }

  function Init(stock: seq<int>): State {
    State(Database([], [], stock, map[]), stock, map[], map[], [])
  }
}
