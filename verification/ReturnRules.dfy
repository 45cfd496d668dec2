/** How an administrator may move a supplier return, and when money holds a payout back. */
module ReturnRules {
  import opened Options

  datatype Status = REQUESTED | APPROVED | ITEM_RETURNED | REFUND_PENDING | REJECTED | RESOLVED | CANCELLED

  datatype RefundStatus = PENDING | PROCESSING | COMPLETED | REFUND_FAILED | REFUND_CANCELLED

  datatype Responsibility = SUPPLIER | SELLER | COURIER | BUYER | PLATFORM | UNDETERMINED

  datatype CaseStatus = OPEN | UNDER_REVIEW | RESOLVED_BUYER | RESOLVED_SELLER | CLOSED

  function Transitions(from: Status): set<Status> {
    match from
    case REQUESTED => {APPROVED, REJECTED, CANCELLED}
    case APPROVED => {ITEM_RETURNED, REJECTED, CANCELLED}
    case ITEM_RETURNED => {REFUND_PENDING, RESOLVED, CANCELLED}
    case REFUND_PENDING => {RESOLVED, CANCELLED}
    case _ => {}
  }

  datatype Refusal = UNCHANGED | INVALID_TRANSITION | RESOLUTION_NOTE_REQUIRED | REFUND_NOT_CONFIRMED

  /** REFUND_PENDING is left towards RESOLVED only with the money back. */
  function Objection(from: Status, to: Status, refund: Option<RefundStatus>, note: bool): Option<Refusal> {
    if from == to then Some(UNCHANGED)
    else if to !in Transitions(from) then Some(INVALID_TRANSITION)
    else if to == RESOLVED && !note then Some(RESOLUTION_NOTE_REQUIRED)
    else if from == REFUND_PENDING && to == RESOLVED && refund != Some(COMPLETED) then Some(REFUND_NOT_CONFIRMED)
    else None
  }

  predicate Closes(status: Status) {
    status == RESOLVED || status == REJECTED || status == CANCELLED
  }

  /** Where a closing decision leaves the order's protection case. */
  function ClosedCase(responsibility: Responsibility): CaseStatus {
    match responsibility
    case BUYER => RESOLVED_SELLER
    case UNDETERMINED => CLOSED
    case _ => RESOLVED_BUYER
  }
}
