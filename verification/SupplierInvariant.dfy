/** What every step of the supplier machine keeps: the log replays to the status, and refunds fit their lines. */
module SupplierInvariant {
  import opened Options
  import opened SupplierRules
  import opened SupplierTables
  import opened SupplierMachine
  import R = ReturnRules

  // ---------- The log ----------

  /** The line is a move of fulfilment f, not the line of its creation. */
  predicate IsMoveOf(e: Event, f: nat) {
    e.fulfilment == f && e.action.Some?
  }

  /** The status the log of a fulfilment leads to. */
  function Replay(events: seq<Event>, f: nat): Status {
    if events == [] then AWAITING_SUPPLIER_CONFIRMATION
    else if IsMoveOf(events[|events| - 1], f) then events[|events| - 1].to
    else Replay(events[..|events| - 1], f)
  }

  /** Every move of the fulfilment starts where the one before ended, and is in the table. */
  predicate IsPath(events: seq<Event>, f: nat) {
    events == []
    || (var last := |events| - 1;
        && IsPath(events[..last], f)
        && (IsMoveOf(events[last], f) ==>
              && events[last].from == Replay(events[..last], f)
              && events[last].to == Target(events[last].action.value)
              && events[last].to in Transitions(events[last].from)))
  }

  lemma LogAppend(events: seq<Event>, e: Event, f: nat)
    ensures Replay(events + [e], f) == if IsMoveOf(e, f) then e.to else Replay(events, f)
    ensures IsPath(events + [e], f) <==>
            && IsPath(events, f)
            && (IsMoveOf(e, f) ==>
                  e.from == Replay(events, f) && e.to == Target(e.action.value) && e.to in Transitions(e.from))
  {
    assert (events + [e])[..|events|] == events;
  }

  // ---------- The tables ----------

  predicate TaskOk(t: Tables, task: Fulfilment) {
    && task.item < |t.items| && task.order == t.items[task.item].order < |t.orders|
    && task.reference.number == t.orders[task.order].number
  }

  predicate TasksOk(t: Tables) {
    && (forall i :: 0 <= i < |t.items| ==> t.items[i].order < |t.orders|)
    && (forall o, q :: 0 <= o < q < |t.orders| ==> t.orders[o].number != t.orders[q].number)
    && (forall f :: 0 <= f < |t.fulfilments| ==> TaskOk(t, t.fulfilments[f]))
    && (forall f, g :: 0 <= f < g < |t.fulfilments| ==>
          t.fulfilments[f].item != t.fulfilments[g].item && t.fulfilments[f].reference != t.fulfilments[g].reference)
  }

  predicate Replays(t: Tables, f: nat)
    requires f < |t.fulfilments|
  {
    IsPath(t.events, f) && Replay(t.events, f) == t.fulfilments[f].status
  }

  predicate LogOk(t: Tables) {
    && (forall i :: 0 <= i < |t.events| ==> t.events[i].fulfilment < |t.fulfilments|)
    && (forall i, j :: 0 <= i < j < |t.events| ==> t.events[i].key != t.events[j].key)
    && (forall f :: 0 <= f < |t.fulfilments| ==> Replays(t, f))
  }

  /** The statuses of a return before its refund is raised. */
  predicate BeforeRefund(status: R.Status) {
    status == R.REQUESTED || status == R.APPROVED || status == R.ITEM_RETURNED || status == R.REJECTED
  }

  predicate ReturnOk(t: Tables, r: nat)
    requires r < |t.requests|
  {
    var row := t.requests[r];
    && row.fulfilment < |t.fulfilments| && row.order == t.fulfilments[row.fulfilment].order
    && (row.refund.Some? ==> row.refund.value < |t.refunds| && t.refunds[row.refund.value].request == r)
    && (BeforeRefund(row.status) ==> row.refund.None?)
    && (row.status == R.REFUND_PENDING ==> row.refund.Some?)
    && (row.status == R.RESOLVED && row.refund.Some? ==> t.refunds[row.refund.value].status == R.COMPLETED)
  }

  predicate RefundOk(t: Tables, k: nat)
    requires k < |t.refunds|
  {
    var refund := t.refunds[k];
    && refund.request < |t.requests| && t.requests[refund.request].refund == Some(k)
    && refund.order == t.requests[refund.request].order
    && refund.amountCents == LineTotal(t, t.requests[refund.request].fulfilment)
  }

  predicate ReturnsOk(t: Tables) {
    && (forall r :: 0 <= r < |t.requests| ==> ReturnOk(t, r))
    && (forall q, r :: 0 <= q < r < |t.requests| ==>
          t.requests[q].fulfilment != t.requests[r].fulfilment && t.requests[q].key != t.requests[r].key)
    && (forall k :: 0 <= k < |t.refunds| ==> RefundOk(t, k))
  }

  predicate DataOk(t: Tables) {
    TasksOk(t) && LogOk(t) && ReturnsOk(t)
  }

  // ---------- What never changes ----------

  predicate SameOrder(a: Order, b: Order) {
    a == b.(status := a.status)
  }

  predicate SameTask(a: Fulfilment, b: Fulfilment) {
    a == b.(status := a.status, unitCost := a.unitCost, totalCost := a.totalCost)
  }

  predicate SameReturn(a: Return, b: Return) {
    && b.fulfilment == a.fulfilment && b.order == a.order && b.buyer == a.buyer && b.key == a.key
    && (a.refund.Some? ==> b.refund == a.refund)
  }

  predicate SameRefund(a: Refund, b: Refund) {
    a == b.(status := a.status) && (a.status == R.COMPLETED ==> b.status == R.COMPLETED)
  }

  predicate Evolves(a: Tables, b: Tables) {
    && |a.orders| <= |b.orders| && a.items <= b.items && a.settled <= b.settled && a.events <= b.events
    && |a.fulfilments| <= |b.fulfilments| && |a.requests| <= |b.requests| && |a.refunds| <= |b.refunds|
    && (forall o :: 0 <= o < |a.orders| ==> SameOrder(a.orders[o], b.orders[o]))
    && (forall f :: 0 <= f < |a.fulfilments| ==> SameTask(a.fulfilments[f], b.fulfilments[f]))
    && (forall r :: 0 <= r < |a.requests| ==> SameReturn(a.requests[r], b.requests[r]))
    && (forall k :: 0 <= k < |a.refunds| ==> SameRefund(a.refunds[k], b.refunds[k]))
    && (forall f :: f in a.purchases ==> f in b.purchases && b.purchases[f].amount == a.purchases[f].amount)
  }

  lemma EvolvesTrans(a: Tables, b: Tables, c: Tables)
    requires Evolves(a, b) && Evolves(b, c)
    ensures Evolves(a, c)
  {
  }

  // ---------- The clients ----------

  predicate ClientOk(t: Tables, pc: Pc) {
    match pc
    case Logging(f) => f < |t.fulfilments|
    case Loaded(move, row) => move.fulfilment < |t.fulfilments| && SameTask(row, t.fulfilments[move.fulfilment])
    case Prepared(move, row) =>
      && move.fulfilment < |t.fulfilments| && SameTask(row, t.fulfilments[move.fulfilment])
      && Objection(row.status, Target(move.action), PapersOf(move, row)).None?
      && (move.action == CONFIRM_AVAILABILITY ==> move.finalUnitCost.Some?)
    case Requesting(filing, row) =>
      filing.fulfilment < |t.fulfilments| && SameTask(row, t.fulfilments[filing.fulfilment])
        && row.buyer == filing.buyer
    case Deciding(decision, row, seen) =>
      && decision.request < |t.requests| && SameReturn(row, t.requests[decision.request])
      && (seen == Some(R.COMPLETED) ==>
            row.refund.Some? && row.refund.value < |t.refunds| && t.refunds[row.refund.value].status == R.COMPLETED)
    case _ => true
  }

  predicate Inv(s: State) {
    DataOk(s.t) && forall c :: c in s.clients ==> ClientOk(s.t, s.clients[c])
  }

  lemma ClientStays(a: Tables, b: Tables, pc: Pc)
    requires Evolves(a, b) && ClientOk(a, pc)
    ensures ClientOk(b, pc)
  {
  }

  /** A step that changes one client's place and evolves the tables keeps everybody sound. */
  lemma OthersStaySound(s: State, b: Tables, c: ClientId, pc: Pc)
    requires Inv(s) && DataOk(b) && Evolves(s.t, b) && ClientOk(b, pc)
    ensures Inv(s.(t := b, clients := s.clients[c := pc]))
  {
    forall d | d in s.clients
      ensures ClientOk(b, s.clients[d])
    {
      ClientStays(s.t, b, s.clients[d]);
    }
  }

  lemma EverybodyStaysSound(s: State, b: Tables)
    requires Inv(s) && DataOk(b) && Evolves(s.t, b)
    ensures Inv(s.(t := b))
  {
    forall d | d in s.clients
      ensures ClientOk(b, s.clients[d])
    {
      ClientStays(s.t, b, s.clients[d]);
    }
  }

  lemma AtIsSound(s: State, c: ClientId)
    requires Inv(s)
    ensures ClientOk(s.t, At(s, c))
  {
  }

  // ---------- One lemma per write ----------

  lemma AddedTaskIsOk(t: Tables, item: nat, position: nat, product: SupplierProduct)
    requires TasksOk(t) && item < |t.items|
    requires !HasTask(t, item) && !ReferenceTaken(t, NewTask(t, item, position, product).reference)
    ensures TasksOk(t.(fulfilments := t.fulfilments + [NewTask(t, item, position, product)]))
  {
    var b := t.(fulfilments := t.fulfilments + [NewTask(t, item, position, product)]);
    assert TaskOk(b, NewTask(t, item, position, product));
    forall f | 0 <= f < |t.fulfilments|
      ensures TaskOk(b, b.fulfilments[f])
    {
      assert TaskOk(t, t.fulfilments[f]);
    }
  }

  lemma TaskAddedIsSound(t: Tables, item: nat, position: nat, product: SupplierProduct)
    requires DataOk(t) && item < |t.items|
    requires !HasTask(t, item) && !ReferenceTaken(t, NewTask(t, item, position, product).reference)
    ensures
      var b := t.(fulfilments := t.fulfilments + [NewTask(t, item, position, product)]);
      DataOk(b) && Evolves(t, b)
  {
    var task := NewTask(t, item, position, product);
    var b := t.(fulfilments := t.fulfilments + [task]);
    NobodyElsesLog(t.events, |t.fulfilments|);
    forall f | 0 <= f < |b.fulfilments|
      ensures Replays(b, f)
    {
      assert f < |t.fulfilments| ==> Replays(t, f);
    }
    AddedTaskIsOk(t, item, position, product);
    forall r | 0 <= r < |b.requests|
      ensures ReturnOk(b, r)
    {
      assert ReturnOk(t, r);
    }
    forall k | 0 <= k < |b.refunds|
      ensures RefundOk(b, k)
    {
      assert RefundOk(t, k);
      assert ReturnOk(t, t.refunds[k].request);
    }
  }

  /** A fulfilment without lines in the log is where tasks start. */
  lemma {:induction false} NobodyElsesLog(events: seq<Event>, f: nat)
    requires forall i :: 0 <= i < |events| ==> events[i].fulfilment != f
    ensures IsPath(events, f) && Replay(events, f) == AWAITING_SUPPLIER_CONFIRMATION
  {
    if events != [] {
      NobodyElsesLog(events[..|events| - 1], f);
    }
  }

  lemma CreationLoggedIsSound(t: Tables, f: nat)
    requires DataOk(t) && f < |t.fulfilments| && !KeyUsed(t.events, PaymentKey(t.fulfilments[f].item))
    ensures
      var b := t.(events := t.events + [CreationEvent(f, t.fulfilments[f].item)]);
      DataOk(b) && Evolves(t, b)
  {
    var e := CreationEvent(f, t.fulfilments[f].item);
    var b := t.(events := t.events + [e]);
    forall g | 0 <= g < |b.fulfilments|
      ensures Replays(b, g)
    {
      assert Replays(t, g);
      LogAppend(t.events, e, g);
    }
    OnlyTheLogChanged(t, b);
  }

  lemma OnlyTheLogChanged(t: Tables, b: Tables)
    requires ReturnsOk(t) && b.requests == t.requests && b.refunds == t.refunds && b.items == t.items
    requires |b.fulfilments| == |t.fulfilments|
    requires forall f :: 0 <= f < |t.fulfilments| ==> SameTask(t.fulfilments[f], b.fulfilments[f])
    ensures ReturnsOk(b)
  {
    forall r | 0 <= r < |b.requests|
      ensures ReturnOk(b, r)
    {
      assert ReturnOk(t, r);
    }
    forall k | 0 <= k < |b.refunds|
      ensures RefundOk(b, k)
    {
      assert RefundOk(t, k);
      assert ReturnOk(t, t.refunds[k].request);
    }
  }

  /** A committed move goes on from where the log stood, even if the row had been away in between. */
  lemma MoveIsSound(t: Tables, move: Move, row: Fulfilment)
    requires DataOk(t) && ClientOk(t, Prepared(move, row))
    requires t.fulfilments[move.fulfilment].status == row.status && !KeyUsed(t.events, KeyOf(move))
    ensures DataOk(MovedTables(t, move, row)) && Evolves(t, MovedTables(t, move, row))
  {
    var b := MovedTables(t, move, row);
    forall g | 0 <= g < |b.fulfilments|
      ensures Replays(b, g)
    {
      assert Replays(t, g);
      LogAppend(t.events, MoveEvent(move, row), g);
    }
    MoveKeepsTasks(t, move, row);
    OnlyTheLogChanged(t, b);
  }

  lemma MoveKeepsTasks(t: Tables, move: Move, row: Fulfilment)
    requires TasksOk(t) && move.fulfilment < |t.fulfilments|
    ensures TasksOk(MovedTables(t, move, row)) && Evolves(t, MovedTables(t, move, row))
  {
  }

  lemma TasksUntouched(t: Tables, b: Tables)
    requires TasksOk(t) && LogOk(t)
    requires b.events == t.events && b.fulfilments == t.fulfilments && b.items == t.items && b.orders == t.orders
    ensures TasksOk(b) && LogOk(b)
  {
    forall f | 0 <= f < |b.fulfilments|
      ensures Replays(b, f)
    {
      assert Replays(t, f);
    }
  }

  lemma FilingIsSound(t: Tables, filing: Filing, row: Fulfilment)
    requires DataOk(t) && ClientOk(t, Requesting(filing, row))
    requires !ReturnKeyUsed(t, FilingKey(filing)) && !HasReturn(t, filing.fulfilment)
    ensures
      var b := t.(requests := t.requests + [NewReturn(filing, row)], cases := OpenedCase(t.cases, row.order));
      DataOk(b) && Evolves(t, b)
  {
    var b := t.(requests := t.requests + [NewReturn(filing, row)], cases := OpenedCase(t.cases, row.order));
    TasksUntouched(t, b);
    forall r | 0 <= r < |b.requests|
      ensures ReturnOk(b, r)
    {
      assert r < |t.requests| ==> ReturnOk(t, r);
    }
    forall k | 0 <= k < |b.refunds|
      ensures RefundOk(b, k)
    {
      assert RefundOk(t, k);
    }
  }

  lemma DecisionIsSound(t: Tables, decision: Decision, row: Return, seen: Option<R.RefundStatus>)
    requires DataOk(t) && ClientOk(t, Deciding(decision, row, seen))
    requires Ruling(t, decision, row, seen, false).None?
    ensures DataOk(DecidedTables(t, decision, row)) && Evolves(t, DecidedTables(t, decision, row))
  {
    var b := DecidedTables(t, decision, row);
    TasksUntouched(t, b);
    DecidedReturnsOk(t, decision, row, seen);
    DecidedRefundsOk(t, decision, row);
  }

  lemma DecidedReturnsOk(t: Tables, decision: Decision, row: Return, seen: Option<R.RefundStatus>)
    requires ReturnsOk(t) && ClientOk(t, Deciding(decision, row, seen))
    requires Ruling(t, decision, row, seen, false).None?
    ensures forall r :: 0 <= r < |t.requests| ==> ReturnOk(DecidedTables(t, decision, row), r)
    ensures SameReturn(t.requests[decision.request], DecidedTables(t, decision, row).requests[decision.request])
  {
    var b := DecidedTables(t, decision, row);
    assert ReturnOk(t, decision.request);
    if RefundOf(t.refunds, decision.request).Some? {
      assert RefundOk(t, RefundOf(t.refunds, decision.request).value);
    }
    forall r | 0 <= r < |t.requests|
      ensures ReturnOk(b, r)
    {
      assert ReturnOk(t, r);
    }
  }

  lemma DecidedRefundsOk(t: Tables, decision: Decision, row: Return)
    requires ReturnsOk(t) && decision.request < |t.requests| && SameReturn(row, t.requests[decision.request])
    ensures forall k :: 0 <= k < |DecidedTables(t, decision, row).refunds| ==>
              RefundOk(DecidedTables(t, decision, row), k)
  {
    var b := DecidedTables(t, decision, row);
    assert ReturnOk(t, decision.request);
    if RefundOf(t.refunds, decision.request).Some? {
      assert RefundOk(t, RefundOf(t.refunds, decision.request).value);
    }
    forall k | 0 <= k < |b.refunds|
      ensures RefundOk(b, k)
    {
      assert k < |t.refunds| ==> RefundOk(t, k);
    }
  }
}
