/** Who may move a supplier fulfilment from where to where. */
module SupplierRules {
  import opened Options

  datatype Role = SELLER | ADMIN | SYSTEM

  datatype Status =
    | AWAITING_PAYMENT | AWAITING_SUPPLIER_CONFIRMATION | CONFIRMED | ORDERED | DISPATCHED
    | IN_TRANSIT | DELIVERED | FAILED | CANCELLED

  datatype Action =
    | CONFIRM_AVAILABILITY | RECORD_PURCHASE | RECORD_DISPATCH | RECORD_IN_TRANSIT
    | RECORD_DELIVERY | REPORT_FAILURE | CANCEL | RETRY

  function Target(action: Action): Status {
    match action
    case CONFIRM_AVAILABILITY => CONFIRMED
    case RECORD_PURCHASE => ORDERED
    case RECORD_DISPATCH => DISPATCHED
    case RECORD_IN_TRANSIT => IN_TRANSIT
    case RECORD_DELIVERY => DELIVERED
    case REPORT_FAILURE => FAILED
    case CANCEL => CANCELLED
    case RETRY => AWAITING_SUPPLIER_CONFIRMATION
  }

  function Transitions(from: Status): set<Status> {
    match from
    case AWAITING_PAYMENT => {AWAITING_SUPPLIER_CONFIRMATION, CANCELLED, FAILED}
    case AWAITING_SUPPLIER_CONFIRMATION => {CONFIRMED, FAILED, CANCELLED}
    case CONFIRMED => {ORDERED, FAILED, CANCELLED}
    case ORDERED => {DISPATCHED, IN_TRANSIT, FAILED, CANCELLED}
    case DISPATCHED => {IN_TRANSIT, FAILED, CANCELLED}
    case IN_TRANSIT => {DELIVERED, FAILED, CANCELLED}
    case DELIVERED => {}
    case FAILED => {AWAITING_SUPPLIER_CONFIRMATION, CANCELLED}
    case CANCELLED => {}
  }

  datatype Refusal =
    | UNCHANGED | INVALID_TRANSITION | SYSTEM_ONLY | ADMIN_RETRY_REQUIRED | NOT_OWNER
    | DELIVERY_REVIEW_REQUIRED | DELIVERY_EVIDENCE_REQUIRED | REASON_REQUIRED | ADMIN_CANCEL_REQUIRED

  /** What the caller brings along besides the move itself. */
  datatype Papers = Papers(role: Role, ownsOrder: bool, evidence: bool, reason: bool, retryApproved: bool)

  /** Why the move is refused, if it is. */
  function Objection(from: Status, to: Status, papers: Papers): Option<Refusal> {
    if from == to then Some(UNCHANGED)
    else if to !in Transitions(from) then Some(INVALID_TRANSITION)
    else if to == AWAITING_SUPPLIER_CONFIRMATION && from == AWAITING_PAYMENT && papers.role != SYSTEM
      then Some(SYSTEM_ONLY)
    else if from == FAILED && to == AWAITING_SUPPLIER_CONFIRMATION && (papers.role != ADMIN || !papers.retryApproved)
      then Some(ADMIN_RETRY_REQUIRED)
    else if !(from == FAILED && to == AWAITING_SUPPLIER_CONFIRMATION) && papers.role == SELLER && !papers.ownsOrder
      then Some(NOT_OWNER)
    else if to == DELIVERED && papers.role != ADMIN then Some(DELIVERY_REVIEW_REQUIRED)
    else if to == DELIVERED && !papers.evidence then Some(DELIVERY_EVIDENCE_REQUIRED)
    else if (to == FAILED || to == CANCELLED) && !papers.reason then Some(REASON_REQUIRED)
    else if to == CANCELLED && papers.role == SELLER then Some(ADMIN_CANCEL_REQUIRED)
    else None
  }
}
