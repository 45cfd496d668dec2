/** The order lifecycle: which status may follow which. */
module OrderLifecycle {

  datatype OrderStatus = PENDING | CONFIRMED | PAID | SHIPPED | DELIVERED | COMPLETED | CANCELLED | REFUNDED

  function Transitions(from: OrderStatus): set<OrderStatus> {
    match from
    case PENDING => {PAID, CANCELLED}
    case PAID => {SHIPPED}
    case SHIPPED => {DELIVERED}
    case DELIVERED => {COMPLETED}
    case _ => {}
  }

  predicate CanTransition(from: OrderStatus, to: OrderStatus) {
    to in Transitions(from)
  }

  /** The statuses of an order whose payment has been collected. */
  predicate Collected(status: OrderStatus) {
    status == PAID || status == SHIPPED || status == DELIVERED || status == COMPLETED
  }

  /** The fulfilment steps of `markOrderFulfilled`. */
  predicate FulfilmentStep(status: OrderStatus) {
    status == SHIPPED || status == DELIVERED || status == COMPLETED
  }

  predicate IsPath(history: seq<OrderStatus>) {
    && history != []
    && history[0] == PENDING
    && forall i :: 0 < i < |history| ==> CanTransition(history[i - 1], history[i])
  }

  /** PENDING is left for good. */
  lemma OnlyTheFirstIsPending(history: seq<OrderStatus>)
    requires IsPath(history)
    ensures forall i :: 0 < i < |history| ==> history[i] != PENDING
  {
    forall i | 0 < i < |history|
      ensures history[i] != PENDING
    {
      assert CanTransition(history[i - 1], history[i]);
    }
  }

  /** Payment and cancellation race for the one move out of PENDING, so no history holds both. */
  lemma NeverPaidAndCancelled(history: seq<OrderStatus>)
    requires IsPath(history)
    ensures !(PAID in history && CANCELLED in history)
  {
    OnlyTheFirstIsPending(history);
    forall i | 0 <= i < |history| && (history[i] == PAID || history[i] == CANCELLED)
      ensures i == 1
    {
      assert CanTransition(history[i - 1], history[i]);
    }
  }
}
