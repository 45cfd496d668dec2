/** The payment attempt lifecycle: which status may follow which. */
module PaymentLifecycle {

  datatype PaymentStatus = PENDING | PROCESSING | SUCCESS | FAILED | CANCELLED | REFUNDED

  function Transitions(from: PaymentStatus): set<PaymentStatus> {
    match from
    case PENDING => {PROCESSING, SUCCESS, FAILED, CANCELLED}
    case PROCESSING => {SUCCESS, FAILED, CANCELLED}
    case _ => {}
  }

  predicate CanTransition(from: PaymentStatus, to: PaymentStatus) {
    to in Transitions(from)
  }

  /** The statuses the guarded updates name in their `where` clause. */
  predicate Claimable(status: PaymentStatus) {
    status == PENDING || status == PROCESSING
  }

  predicate Terminal(status: PaymentStatus) {
    status == SUCCESS || status == FAILED || status == CANCELLED || status == REFUNDED
  }

  /** A status history that starts at row creation and only makes legal moves. */
  predicate IsPath(history: seq<PaymentStatus>) {
    && history != []
    && history[0] == PENDING
    && forall i :: 0 < i < |history| ==> CanTransition(history[i - 1], history[i])
  }

  /** The claim guard, the terminal list and the transition table describe one rule. */
  lemma ClaimableIsNotTerminal(status: PaymentStatus)
    ensures Claimable(status) <==> !Terminal(status)
    ensures Terminal(status) <==> Transitions(status) == {}
    ensures Claimable(status) ==>
              CanTransition(status, SUCCESS) && CanTransition(status, FAILED) && CanTransition(status, CANCELLED)
  {
    if Claimable(status) {
      assert SUCCESS in Transitions(status);
    }
  }

  /** Terminal first wins: along any legal history only the last status can be terminal. */
  lemma TerminalComesLast(history: seq<PaymentStatus>)
    requires IsPath(history)
    ensures forall i :: 0 <= i < |history| - 1 ==> !Terminal(history[i])
  {
    forall i | 0 <= i < |history| - 1
      ensures !Terminal(history[i])
    {
      assert CanTransition(history[i], history[i + 1]);
    }
  }
}
