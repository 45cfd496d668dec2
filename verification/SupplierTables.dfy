/**
 The rows behind supplier fulfilments and their returns, the unique keys that bind them, and what each
 transaction of the two services writes. Rows are named by their position and never deleted.
 */
module SupplierTables {
  import opened Options
  import opened SupplierRules
  import O = OrderLifecycle
  import R = ReturnRules

  datatype Order = Order(number: string, status: O.OrderStatus, buyer: nat, seller: nat)

  datatype Item = Item(order: nat, totalCents: nat, quantity: nat, supplierProduct: Option<nat>, titled: bool)

  datatype SupplierProduct = SupplierProduct(costMinor: int, deliveryChargeMinor: int)

  /** The human-readable reference: the order number, which needs no cleaning, and the line's position. */
  datatype Reference = Reference(number: string, position: nat)

  datatype Fulfilment = Fulfilment(
    item: nat, order: nat, seller: nat, buyer: nat, reference: Reference,
    quantity: nat, deliveryCharge: int, unitCost: int, totalCost: int, status: Status)

  /** The keys the services build, and any other a caller may send; a caller may also send a built one. */
  datatype EventKey = PaymentKey(item: nat) | MoveKey(fulfilment: nat, action: Action) | ChosenKey(text: string)

  /** A line of the status log. The line written at creation carries no action. */
  datatype Event = Event(fulfilment: nat, from: Status, to: Status, action: Option<Action>, key: EventKey)

  datatype PurchaseStatus = PENDING_CONFIRMATION | PURCHASE_CONFIRMED | PURCHASE_FAILED | PURCHASE_CANCELLED | REFUNDED

  datatype Purchase = Purchase(status: PurchaseStatus, amount: int)

  datatype Shipment = Shipment(carrier: string, tracking: string, delivered: bool)

  datatype ReturnKey = BuiltReturnKey(fulfilment: nat) | ChosenReturnKey(text: string)

  datatype Return = Return(
    fulfilment: nat, order: nat, buyer: nat, key: ReturnKey,
    status: R.Status, responsibility: R.Responsibility, refund: Option<nat>)

  /** A refund raised for a return; its key is built from the return's id. */
  datatype Refund = Refund(request: nat, order: nat, amountCents: nat, status: R.RefundStatus)

  datatype Tables = Tables(
    orders: seq<Order>,
    items: seq<Item>,
    settled: set<nat>,                 // orders with a SUCCESS payment
    fulfilments: seq<Fulfilment>,
    events: seq<Event>,
    purchases: map<nat, Purchase>,     // by fulfilment
    shipments: map<nat, Shipment>,     // by order
    deliveredOrders: set<nat>,
    requests: seq<Return>,
    cases: map<nat, R.CaseStatus>,     // by order
    refunds: seq<Refund>)

  // ---------- Unique keys ----------

  predicate KeyUsed(events: seq<Event>, key: EventKey) {
    exists i :: 0 <= i < |events| && events[i].key == key
  }

  predicate HasTask(t: Tables, item: nat) {
    exists f :: 0 <= f < |t.fulfilments| && t.fulfilments[f].item == item
  }

  predicate NumberTaken(t: Tables, number: string) {
    exists o :: 0 <= o < |t.orders| && t.orders[o].number == number
  }

  predicate ReferenceTaken(t: Tables, reference: Reference) {
    exists f :: 0 <= f < |t.fulfilments| && t.fulfilments[f].reference == reference
  }

  /** Another line of the same order holds this position. */
  predicate HeldByAnother(t: Tables, item: nat, position: nat)
    requires item < |t.items|
  {
    exists f :: 0 <= f < |t.fulfilments| && t.fulfilments[f].item != item
      && t.fulfilments[f].order == t.items[item].order && t.fulfilments[f].reference.position == position
  }

  predicate HasReturn(t: Tables, fulfilment: nat) {
    exists r :: 0 <= r < |t.requests| && t.requests[r].fulfilment == fulfilment
  }

  predicate ReturnKeyUsed(t: Tables, key: ReturnKey) {
    exists r :: 0 <= r < |t.requests| && t.requests[r].key == key
  }

  /** The refund raised for a return, if there is one. */
  function RefundOf(refunds: seq<Refund>, request: nat): (found: Option<nat>)
    ensures found.Some? ==> found.value < |refunds| && refunds[found.value].request == request
    ensures found.None? ==> forall i :: 0 <= i < |refunds| ==> refunds[i].request != request
  {
    if refunds == [] then None
    else if refunds[|refunds| - 1].request == request then Some(|refunds| - 1)
    else RefundOf(refunds[..|refunds| - 1], request)
  }

  // ---------- One task per paid supplier line ----------

  function NewTask(t: Tables, item: nat, position: nat, product: SupplierProduct): Fulfilment
    requires item < |t.items| && t.items[item].order < |t.orders|
  {
    var line := t.items[item];
    var order := t.orders[line.order];
    Fulfilment(item, line.order, order.seller, order.buyer, Reference(order.number, position),
               line.quantity, product.deliveryChargeMinor, product.costMinor,
               product.costMinor * line.quantity + product.deliveryChargeMinor, AWAITING_SUPPLIER_CONFIRMATION)
  }

  function CreationEvent(f: nat, item: nat): Event {
    Event(f, AWAITING_PAYMENT, AWAITING_SUPPLIER_CONFIRMATION, None, PaymentKey(item))
  }

  // ---------- One move of a fulfilment ----------

  /** A request to move a fulfilment; blank texts are "". */
  datatype Move = Move(
    fulfilment: nat, action: Action, role: Role, actor: nat,
    finalUnitCost: Option<int>, carrier: string, tracking: string, evidence: string, reason: string,
    key: Option<EventKey>)

  function KeyOf(move: Move): EventKey {
    if move.key.Some? then move.key.value else MoveKey(move.fulfilment, move.action)
  }

  function PapersOf(move: Move, seen: Fulfilment): Papers {
    Papers(move.role, move.role == SELLER && seen.seller == move.actor, move.evidence != "", move.reason != "",
           move.action == RETRY && move.role == ADMIN)
  }

  datatype MoveError =
    | NotFound | Forbidden | Refused(why: Refusal) | CostRequired | PurchaseNotConfirmed
    | TrackingRequired | ConcurrentUpdate | Unexpected

  datatype MoveAnswer = Moved(from: Status, to: Status) | Idempotent | Failed(error: MoveError)

  /** What is missing for an allowed move. */
  function Missing(t: Tables, move: Move): Option<MoveError> {
    match move.action
    case CONFIRM_AVAILABILITY => if move.finalUnitCost.None? then Some(CostRequired) else None
    case RECORD_PURCHASE =>
      if move.fulfilment !in t.purchases || t.purchases[move.fulfilment].status != PURCHASE_CONFIRMED
        then Some(PurchaseNotConfirmed) else None
    case RECORD_DISPATCH => if move.carrier == "" || move.tracking == "" then Some(TrackingRequired) else None
    case _ => None
  }

  /** The row after the conditional update: the move's own columns, nothing else. */
  function MovedRow(row: Fulfilment, move: Move, seen: Fulfilment): Fulfilment {
    if move.action == CONFIRM_AVAILABILITY && move.finalUnitCost.Some? then
      row.(status := Target(move.action), unitCost := move.finalUnitCost.value,
      totalCost := move.finalUnitCost.value * seen.quantity + seen.deliveryCharge)
    else row.(status := Target(move.action))
  }

  /** The purchase row is created once, by the first confirmation, and never priced again. */
  function MovedPurchases(purchases: map<nat, Purchase>, move: Move, seen: Fulfilment): map<nat, Purchase> {
    var f := move.fulfilment;
    match move.action
    case CONFIRM_AVAILABILITY =>
      if f in purchases || move.finalUnitCost.None? then purchases
      else purchases[f := Purchase(PENDING_CONFIRMATION,
        seen.quantity * move.finalUnitCost.value + seen.deliveryCharge)]
    case REPORT_FAILURE => Restated(purchases, f, {PENDING_CONFIRMATION, PURCHASE_CONFIRMED}, PURCHASE_FAILED)
    case CANCEL => Restated(purchases, f, {PENDING_CONFIRMATION, PURCHASE_CONFIRMED}, PURCHASE_CANCELLED)
    case RETRY => Restated(purchases, f, {PURCHASE_FAILED, PURCHASE_CANCELLED}, PENDING_CONFIRMATION)
    case _ => purchases
  }

  function Restated(purchases: map<nat, Purchase>, f: nat, from: set<PurchaseStatus>,
                    to: PurchaseStatus): map<nat, Purchase> {
    if f in purchases && purchases[f].status in from then purchases[f := purchases[f].(status := to)] else purchases
  }

  predicate Ships(action: Action) {
    action == RECORD_DISPATCH || action == RECORD_IN_TRANSIT || action == RECORD_DELIVERY
  }

  function MovedShipments(shipments: map<nat, Shipment>, move: Move, order: nat): map<nat, Shipment> {
    var delivered := move.action == RECORD_DELIVERY;
    if !Ships(move.action) then shipments
    else if order in shipments then
      var was := shipments[order];
      shipments[order := Shipment(if move.carrier != "" then move.carrier else was.carrier,
                                  if move.tracking != "" then move.tracking else was.tracking, delivered)]
    else if move.carrier != "" && move.tracking != ""
      then shipments[order := Shipment(move.carrier, move.tracking, delivered)]
    else shipments
  }

  function MoveEvent(move: Move, seen: Fulfilment): Event {
    Event(move.fulfilment, seen.status, Target(move.action), Some(move.action), KeyOf(move))
  }

  /** Everything one committed move writes. */
  function MovedTables(t: Tables, move: Move, seen: Fulfilment): Tables
    requires move.fulfilment < |t.fulfilments|
  {
    var f := move.fulfilment;
    t.(fulfilments := t.fulfilments[f := MovedRow(t.fulfilments[f], move, seen)],
    purchases := MovedPurchases(t.purchases, move, seen),
    shipments := MovedShipments(t.shipments, move, seen.order),
    deliveredOrders := if move.action == RECORD_DELIVERY then t.deliveredOrders + {seen.order} else t.deliveredOrders,
    events := t.events + [MoveEvent(move, seen)])
  }

  // ---------- Returns ----------

  datatype Filing = Filing(fulfilment: nat, buyer: nat, key: Option<ReturnKey>)

  function FilingKey(filing: Filing): ReturnKey {
    if filing.key.Some? then filing.key.value else BuiltReturnKey(filing.fulfilment)
  }

  predicate Returnable(status: Status) {
    status != AWAITING_PAYMENT && status != CANCELLED
  }

  function NewReturn(filing: Filing, seen: Fulfilment): Return {
    Return(filing.fulfilment, seen.order, filing.buyer, FilingKey(filing), R.REQUESTED, R.UNDETERMINED, None)
  }

  /** The order's one protection case is opened, or opened again unless it is still being worked on. */
  function OpenedCase(cases: map<nat, R.CaseStatus>, order: nat): map<nat, R.CaseStatus> {
    if order in cases && (cases[order] == R.OPEN || cases[order] == R.UNDER_REVIEW) then cases
      else cases[order := R.OPEN]
  }

  datatype Decision = Decision(request: nat, status: R.Status, responsibility: Option<R.Responsibility>, note: bool)

  predicate AsksForRefund(decision: Decision, seen: Return) {
    decision.status == R.REFUND_PENDING && seen.status != R.REFUND_PENDING
  }

  function DecidedReturn(row: Return, decision: Decision, refund: Option<nat>): Return {
    row.(status := decision.status,
    responsibility := if decision.responsibility.Some? then decision.responsibility.value else row.responsibility,
    refund := if refund.Some? then refund else row.refund)
  }

  function DecidedCases(cases: map<nat, R.CaseStatus>, decision: Decision, seen: Return): map<nat, R.CaseStatus> {
    if R.Closes(decision.status) && seen.order in cases then
      cases[seen.order := R.ClosedCase(if decision.responsibility.Some? then decision.responsibility.value
        else seen.responsibility)]
    else cases
  }
}
