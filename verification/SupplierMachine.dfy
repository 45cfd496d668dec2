/**
 Supplier fulfilments and returns under any interleaving: any number of clients, one statement group
 at a time. What a transaction read first may be old by the time it writes; its writes are one step,
 since the conditional update keeps the row locked to the commit. A call that stops half-way has written
 nothing, except that a task's creation and its first log line are two separate writes.
 */
module SupplierMachine {
  import opened Options
  import opened SupplierRules
  import opened SupplierTables
  import O = OrderLifecycle
  import R = ReturnRules

  type ClientId = nat

  datatype ReturnError =
    | ReturnNotFound | TaskNotFound | AlreadyExists | NotYourOrder | InvalidState | Duplicate
    | RefundSourceMissing | DecisionRefused(why: R.Refusal) | DecisionConcurrent | DuplicateRefund

  datatype ReturnAnswer =
    | Filed(request: nat) | AlreadyFiled(request: nat)
    | Decided(from: R.Status, to: R.Status, refund: Option<nat>)
    | ReturnFailed(error: ReturnError)

  datatype Pc =
    | Idle
    | Logging(f: nat)                      // task row written, its first log line not yet
    | Loaded(move: Move, row: Fulfilment)
    | Prepared(move: Move, row: Fulfilment)
    | Requesting(filing: Filing, row: Fulfilment)
    | Deciding(decision: Decision, request: Return, refund: Option<R.RefundStatus>)
    | AnsweredMove(moveAnswer: MoveAnswer)
    | AnsweredReturn(returnAnswer: ReturnAnswer)

  datatype State = State(t: Tables, clients: map<ClientId, Pc>)

  function At(s: State, c: ClientId): Pc {
    if c in s.clients then s.clients[c] else Idle
  }

  function Go(s: State, c: ClientId, pc: Pc): State {
    s.(clients := s.clients[c := pc])
  }

  predicate AtRest(s: State, c: ClientId) {
    At(s, c).Idle? || At(s, c).AnsweredMove? || At(s, c).AnsweredReturn?
  }

  // ---------- ensureSupplierFulfilmentsForPaidOrder ----------

  function CreateTask(s: State, c: ClientId, item: nat, position: nat, product: SupplierProduct): State {
    if !AtRest(s, c) || item >= |s.t.items| || s.t.items[item].order >= |s.t.orders| then s
    else
      var task := NewTask(s.t, item, position, product);
      if HasTask(s.t, item) || ReferenceTaken(s.t, task.reference) then s
      else Go(s.(t := s.t.(fulfilments := s.t.fulfilments + [task])), c, Logging(|s.t.fulfilments|))
  }

  function LogTask(s: State, c: ClientId): State {
    match At(s, c)
    case Logging(f) =>
      if f >= |s.t.fulfilments| || KeyUsed(s.t.events, PaymentKey(s.t.fulfilments[f].item)) then Go(s, c, Idle)
      else Go(s.(t := s.t.(events := s.t.events + [CreationEvent(f, s.t.fulfilments[f].item)])), c, Idle)
    case _ => s
  }

  // ---------- transitionSupplierFulfilment ----------

  function LoadMove(s: State, c: ClientId, move: Move): State {
    if !AtRest(s, c) then s
    else if move.fulfilment >= |s.t.fulfilments| then Go(s, c, AnsweredMove(Failed(NotFound)))
    else
      var row := s.t.fulfilments[move.fulfilment];
      if move.role == SELLER && row.seller != move.actor then Go(s, c, AnsweredMove(Failed(Forbidden)))
      else Go(s, c, Loaded(move, row))
  }

  /** What stands in the way of the move, judged on the row read and on the log and purchase read after it. */
  function Verdict(t: Tables, move: Move, row: Fulfilment): Option<MoveAnswer> {
    var objection := Objection(row.status, Target(move.action), PapersOf(move, row));
    if row.status == Target(move.action) then
      Some(if KeyUsed(t.events, KeyOf(move)) then Idempotent else Failed(Refused(UNCHANGED)))
    else if objection.Some? then Some(Failed(Refused(objection.value)))
    else
      var missing := Missing(t, move);
      if missing.Some? then Some(Failed(missing.value)) else None
  }

  function PrepareMove(s: State, c: ClientId): State {
    match At(s, c)
    case Loaded(move, row) =>
      var verdict := Verdict(s.t, move, row);
      Go(s, c, if verdict.Some? then AnsweredMove(verdict.value) else Prepared(move, row))
    case _ => s
  }

  /** `clash`: another unique column of the purchase or shipment row is taken. */
  function FinishMove(s: State, c: ClientId, clash: bool): State {
    match At(s, c)
    case Prepared(move, row) =>
      if move.fulfilment >= |s.t.fulfilments| || s.t.fulfilments[move.fulfilment].status != row.status then
        Go(s, c, AnsweredMove(Failed(ConcurrentUpdate)))
      else if clash || KeyUsed(s.t.events, KeyOf(move)) then Go(s, c, AnsweredMove(Idempotent))
      else Go(s.(t := MovedTables(s.t, move, row)), c, AnsweredMove(Moved(row.status, Target(move.action))))
    case _ => s
  }

  // ---------- createSupplierReturnRequest ----------

  /** The return filed under a key. */
  function RequestBy(requests: seq<Return>, key: ReturnKey): (r: nat)
    requires exists r :: 0 <= r < |requests| && requests[r].key == key
    ensures r < |requests| && requests[r].key == key
  {
    if requests[|requests| - 1].key == key then |requests| - 1 else RequestBy(requests[..|requests| - 1], key)
  }

  /** What stands in the way of a return: an earlier one, or the fulfilment itself. */
  function FilingVerdict(t: Tables, filing: Filing): Option<ReturnAnswer> {
    if ReturnKeyUsed(t, FilingKey(filing)) then Some(AlreadyFiled(RequestBy(t.requests, FilingKey(filing))))
    else if HasReturn(t, filing.fulfilment) then Some(ReturnFailed(AlreadyExists))
    else if filing.fulfilment >= |t.fulfilments| then Some(ReturnFailed(TaskNotFound))
    else
      var row := t.fulfilments[filing.fulfilment];
      if row.buyer != filing.buyer then Some(ReturnFailed(NotYourOrder))
      else if !Returnable(row.status) then Some(ReturnFailed(InvalidState))
      else None
  }

  function LoadFiling(s: State, c: ClientId, filing: Filing): State {
    if !AtRest(s, c) then s
    else
      var stopped := FilingVerdict(s.t, filing);
      Go(s, c, if stopped.Some? then AnsweredReturn(stopped.value)
               else Requesting(filing, s.t.fulfilments[filing.fulfilment]))
  }

  function FileReturn(s: State, c: ClientId, clash: bool): State {
    match At(s, c)
    case Requesting(filing, row) =>
      if clash || ReturnKeyUsed(s.t, FilingKey(filing)) || HasReturn(s.t, filing.fulfilment) then
        Go(s, c, AnsweredReturn(ReturnFailed(Duplicate)))
      else
        Go(s.(t := s.t.(requests := s.t.requests + [NewReturn(filing, row)],
          cases := OpenedCase(s.t.cases, row.order))),
           c, AnsweredReturn(Filed(|s.t.requests|)))
    case _ => s
  }

  // ---------- updateSupplierReturnStatus ----------

  function LoadDecision(s: State, c: ClientId, decision: Decision): State {
    if !AtRest(s, c) then s
    else if decision.request >= |s.t.requests| then Go(s, c, AnsweredReturn(ReturnFailed(ReturnNotFound)))
    else
      var row := s.t.requests[decision.request];
      Go(s, c, Deciding(decision, row, RefundSeen(s.t, row)))
  }

  /** The status of the refund a return names, read along with it. */
  function RefundSeen(t: Tables, row: Return): Option<R.RefundStatus> {
    if row.refund.Some? && row.refund.value < |t.refunds| then Some(t.refunds[row.refund.value].status) else None
  }

  /** The refund the decision goes with, and whether it has to be raised first. */
  function RefundFor(t: Tables, decision: Decision, row: Return): Option<nat> {
    if !AsksForRefund(decision, row) then row.refund
    else if RefundOf(t.refunds, decision.request).Some? then RefundOf(t.refunds, decision.request)
    else Some(|t.refunds|)
  }

  predicate Raises(t: Tables, decision: Decision, row: Return) {
    AsksForRefund(decision, row) && RefundOf(t.refunds, decision.request).None?
  }

  function RefundStatusFor(t: Tables, decision: Decision, row: Return,
                           seen: Option<R.RefundStatus>): Option<R.RefundStatus> {
    if !AsksForRefund(decision, row) then seen
    else
      var existing := RefundOf(t.refunds, decision.request);
      Some(if existing.Some? then t.refunds[existing.value].status else R.PENDING)
  }

  function LineTotal(t: Tables, fulfilment: nat): nat {
    if fulfilment < |t.fulfilments| && t.fulfilments[fulfilment].item < |t.items| then
      t.items[t.fulfilments[fulfilment].item].totalCents
    else 0
  }

  /** What a decision, once made, writes: the refund if one is raised, the row, the case. */
  function DecidedTables(t: Tables, decision: Decision, row: Return): Tables
    requires decision.request < |t.requests|
  {
    var refunds := if Raises(t, decision, row)
                   then t.refunds + [Refund(decision.request, row.order, LineTotal(t, row.fulfilment), R.PENDING)]
                     else t.refunds;
    t.(refunds := refunds,
    requests := t.requests[decision.request :=
      DecidedReturn(t.requests[decision.request], decision, RefundFor(t, decision, row))],
    cases := DecidedCases(t.cases, decision, row))
  }

  function Ruling(t: Tables, decision: Decision, row: Return, seen: Option<R.RefundStatus>,
                  clash: bool): Option<ReturnError> {
    if AsksForRefund(decision, row) && row.order !in t.settled then Some(RefundSourceMissing)
    else
      var objection := R.Objection(row.status, decision.status, RefundStatusFor(t, decision, row, seen), decision.note);
      if objection.Some? then Some(DecisionRefused(objection.value))
      else if decision.request >= |t.requests| || t.requests[decision.request].status != row.status
        then Some(DecisionConcurrent)
      else if clash then Some(DuplicateRefund)
      else None
  }

  function Decide(s: State, c: ClientId, clash: bool): State {
    match At(s, c)
    case Deciding(decision, row, seen) =>
      var error := Ruling(s.t, decision, row, seen, clash);
      if error.Some? then Go(s, c, AnsweredReturn(ReturnFailed(error.value)))
      else Go(s.(t := DecidedTables(s.t, decision, row)), c,
        AnsweredReturn(Decided(row.status, decision.status, RefundFor(s.t, decision, row))))
    case _ => s
  }

  // ---------- The rest of the system ----------

  datatype Line = Line(totalCents: nat, quantity: nat, supplierProduct: Option<nat>, titled: bool)

  function Items(order: nat, lines: seq<Line>): seq<Item> {
    seq(|lines|, i requires 0 <= i < |lines| =>
      Item(order, lines[i].totalCents, lines[i].quantity, lines[i].supplierProduct, lines[i].titled))
  }

  datatype Step =
    | SCreateTask(c: ClientId, item: nat, position: nat, product: SupplierProduct)
    | SLogTask(c: ClientId)
    | SLoadMove(c: ClientId, move: Move)
    | SPrepareMove(c: ClientId)
    | SFinishMove(c: ClientId, clash: bool)
    | SLoadFiling(c: ClientId, filing: Filing)
    | SFileReturn(c: ClientId, clash: bool)
    | SLoadDecision(c: ClientId, decision: Decision)
    | SDecide(c: ClientId, clash: bool)
    | SStop(c: ClientId)
    | SCheckout(order: Order, lines: seq<Line>)
    | SSettles(o: nat)
    | SOrderMoves(o: nat, status: O.OrderStatus)
    | SPurchaseMoves(f: nat, purchase: PurchaseStatus)
    | SRefundMoves(r: nat, refund: R.RefundStatus)
    | SCaseMoves(o: nat, caseStatus: R.CaseStatus)
    | SShipmentMoves(o: nat, shipment: Shipment)

  predicate ByClient(step: Step) {
    !step.SCheckout? && !step.SSettles? && !step.SOrderMoves? && !step.SPurchaseMoves?
    && !step.SRefundMoves? && !step.SCaseMoves? && !step.SShipmentMoves?
  }

  /**
   What else happens to the rows. Checkout retries until the order number is a new one, the purchase service
   changes a purchase's status and never its amount, and a completed refund stays completed.
   */
  function WorldTables(t: Tables, step: Step): Tables {
    match step
    case SCheckout(order, lines) =>
      if NumberTaken(t, order.number) then t
      else t.(orders := t.orders + [order], items := t.items + Items(|t.orders|, lines))
    case SSettles(o) => t.(settled := t.settled + {o})
    case SOrderMoves(o, status) =>
      if o < |t.orders| then t.(orders := t.orders[o := t.orders[o].(status := status)]) else t
    case SPurchaseMoves(f, status) =>
      if f in t.purchases then t.(purchases := t.purchases[f := t.purchases[f].(status := status)]) else t
    case SRefundMoves(r, status) =>
      if r < |t.refunds| && t.refunds[r].status != R.COMPLETED
        then t.(refunds := t.refunds[r := t.refunds[r].(status := status)]) else t
    case SCaseMoves(o, status) => t.(cases := t.cases[o := status])
    case SShipmentMoves(o, shipment) => t.(shipments := t.shipments[o := shipment])
    case _ => t
  }

  function Apply(s: State, step: Step): State {
    match step
    case SCreateTask(c, item, position, product) => CreateTask(s, c, item, position, product)
    case SLogTask(c) => LogTask(s, c)
    case SLoadMove(c, move) => LoadMove(s, c, move)
    case SPrepareMove(c) => PrepareMove(s, c)
    case SFinishMove(c, clash) => FinishMove(s, c, clash)
    case SLoadFiling(c, filing) => LoadFiling(s, c, filing)
    case SFileReturn(c, clash) => FileReturn(s, c, clash)
    case SLoadDecision(c, decision) => LoadDecision(s, c, decision)
    case SDecide(c, clash) => Decide(s, c, clash)
    case SStop(c) => Go(s, c, Idle)
    case _ => s.(t := WorldTables(s.t, step))
  }

  function Run(s: State, steps: seq<Step>): State {
    if steps == [] then s else Apply(Run(s, steps[..|steps| - 1]), steps[|steps| - 1])
  }

  const Empty := State(Tables([], [], {}, [], [], map[], map[], {}, [], map[], []), map[])
}
