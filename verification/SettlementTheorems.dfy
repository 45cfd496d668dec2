/** What holds in every state that any schedule of the settlement protocol can reach. */
module SettlementTheorems {
  import opened Options
  import opened SettlementGate
  import opened SettlementMachine
  import opened SettlementInvariant
  import opened SettlementSteps
  import opened SettlementCommits
  import P = PaymentLifecycle
  import O = OrderLifecycle

  lemma InitInv(stock: seq<int>)
    ensures Inv(Init(stock))
  {
  }

  lemma {:induction false} RunKeepsInv(s: State, steps: seq<Step>)
    requires Inv(s)
    ensures Inv(Run(s, steps)) && Later(s, Run(s, steps))
    decreases |steps|
  {
    if steps != [] {
      var before := steps[..|steps| - 1];
      RunKeepsInv(s, before);
      StepKeepsInv(Run(s, before), steps[|steps| - 1]);
      LaterTrans(s, Run(s, before), Run(s, steps));
    }
  }

  function Reached(stock: seq<int>, steps: seq<Step>): State {
    Run(Init(stock), steps)
  }

  lemma ReachedInv(stock: seq<int>, steps: seq<Step>)
    ensures Inv(Reached(stock, steps))
  {
    InitInv(stock);
    RunKeepsInv(Init(stock), steps);
  }

  /**
   One effective successful payment per order, on every schedule: although failure claims take no
   lock, callers arrive with stale rows, lock keys may collide and any client may crash anywhere.
   */
  lemma OneSuccessPerOrder(stock: seq<int>, steps: seq<Step>, p: nat, q: nat)
    requires Settled(Reached(stock, steps).db, p) && Settled(Reached(stock, steps).db, q)
    requires Reached(stock, steps).db.payments[p].order == Reached(stock, steps).db.payments[q].order
    ensures p == q
  {
    ReachedInv(stock, steps);
  }

  /**
   What the two unique columns are for: no provider transaction pays twice, not even two orders. On every schedule
   two settled payments differ in the reference they were settled on and in the transaction id they carry.
   */
  lemma NoTransactionPaysTwice(stock: seq<int>, steps: seq<Step>, p: nat, q: nat)
    requires p != q && Settled(Reached(stock, steps).db, p) && Settled(Reached(stock, steps).db, q)
    ensures
      var a, b := Reached(stock, steps).db.payments[p], Reached(stock, steps).db.payments[q];
      && a.settledBy.Some? && b.settledBy.Some?
      && (a.settledBy.value.reference == b.settledBy.value.reference ==> a.settledBy.value.reference == "")
      && (a.transactionId == b.transactionId ==> a.transactionId.None?)
  {
    ReachedInv(stock, steps);
    var db := Reached(stock, steps).db;
    var a, b := db.payments[p], db.payments[q];
    assert PaymentOk(db, a) && PaymentOk(db, b);
    var reference := ReferenceKey(a.settledBy.value.reference);
    assert !(HoldsKey(a, reference) && HoldsKey(b, reference));
    if a.transactionId.Some? {
      assert HoldsKey(a, TransactionKey(a.transactionId.value));
    }
  }

  /** An order counts as collected only with a successful payment of exactly its total behind it. */
  lemma CollectedOrdersArePaidInFull(stock: seq<int>, steps: seq<Step>, o: nat)
    requires o < |Reached(stock, steps).db.orders| && O.Collected(Reached(stock, steps).db.orders[o].status)
    ensures exists p: nat :: Pays(Reached(stock, steps).db, p, o)
  {
    ReachedInv(stock, steps);
    assert OrderOk(Reached(stock, steps).db, o);
  }

  /** Money is only ever settled on an answer that agrees with the row as it stands, on either channel. */
  lemma SettledMoneyIsCorroborated(stock: seq<int>, steps: seq<Step>, p: nat)
    requires Settled(Reached(stock, steps).db, p)
    ensures
      var row := Reached(stock, steps).db.payments[p];
      row.settledBy.Some? && JudgeStatus(row, row.settledBy.value) == StatusAccepted
  {
    ReachedInv(stock, steps);
    var row := Reached(stock, steps).db.payments[p];
    assert PaymentOk(Reached(stock, steps).db, row);
    StatusGateIsCorroboration(row, row.settledBy.value);
  }

  /**
   First terminal outcome wins. A payment's history is a legal path; it has ended exactly when some
   claim won it; at most one claim ever wins; and every answer any claim gave is true of the row now.
   */
  lemma FirstOutcomeWins(stock: seq<int>, steps: seq<Step>, p: nat)
    requires p < |Reached(stock, steps).db.payments|
    ensures
      var t := Reached(stock, steps);
      && P.IsPath(t.db.payments[p].history)
      && t.db.payments[p].history[|t.db.payments[p].history| - 1] == t.db.payments[p].status
      && (P.Terminal(t.db.payments[p].status) <==> exists i: nat :: WonAt(t, i, p))
      && (forall i: nat, j: nat :: WonAt(t, i, p) && WonAt(t, j, p) ==> i == j)
      && (forall i :: 0 <= i < |t.replies| ==> ReplyTrue(t.db, t.replies[i]))
  {
    ReachedInv(stock, steps);
    var t := Reached(stock, steps);
    assert PaymentOk(t.db, t.db.payments[p]);
    if i: nat :| WonAt(t, i, p) {
      assert ReplyTrue(t.db, t.replies[i]);
    }
  }

  /** Nothing that happens later takes back an outcome: ended payments, recorded events, cancelled orders. */
  lemma CommittedOutcomesAreFinal(stock: seq<int>, steps: seq<Step>, more: seq<Step>)
    ensures
      var s, t := Reached(stock, steps), Run(Reached(stock, steps), more);
      && |s.db.payments| <= |t.db.payments| && |s.db.orders| <= |t.db.orders|
      && (forall p :: 0 <= p < |s.db.payments| && P.Terminal(s.db.payments[p].status) ==>
         t.db.payments[p] == s.db.payments[p])
      && (forall e :: e in s.db.events ==> e in t.db.events && t.db.events[e] == s.db.events[e])
      && (forall o :: 0 <= o < |s.db.orders| && s.db.orders[o].status == O.CANCELLED ==>
         t.db.orders[o] == s.db.orders[o])
      && (forall o :: 0 <= o < |s.db.orders| && O.Collected(s.db.orders[o].status) ==>
         O.Collected(t.db.orders[o].status))
  {
    ReachedInv(stock, steps);
    RunKeepsInv(Reached(stock, steps), more);
  }

  // ---------- Events ----------

  /** What the webhook judged stopped at a gate: no payment row was found, or its judgement was a refusal. */
  predicate StoppedAtAGate(seen: Seen) {
    match Locate(seen.rows, seen.delivery)
    case Found(p) => JudgeWebhook(seen.rows[p], seen.delivery, seen.reply) != WebhookAccepted
    case _ => true
  }

  /**
   The three final statuses of a charge event. PROCESSED and IGNORED say what the event's own transaction did;
   FAILED says exactly that the delivery, judged on rows of this very database as they once stood, was stopped.
   */
  lemma EventStatusTellsWhatHappened(stock: seq<int>, steps: seq<Step>, e: EventId)
    requires e in Reached(stock, steps).db.events && Reached(stock, steps).db.events[e].chargeSuccess
    ensures
      var t := Reached(stock, steps);
      var row := t.db.events[e];
      && (row.status == PROCESSED <==> exists i: nat :: ReportedAt(t, i, e) && t.replies[i].answer.Claimed?)
      && (row.status == IGNORED <==> exists i: nat :: ReportedAt(t, i, e) && !t.replies[i].answer.Claimed?)
      && (row.status == EVENT_FAILED <==> StoppedAtAGate(row.seen))
      && row.seen.delivery.event == e && PaymentsEvolve(row.seen.rows, t.db.payments)
      && row.status != RECEIVED
  {
    ReachedInv(stock, steps);
    var t := Reached(stock, steps);
    assert EventOk(t, e);
    forall i: nat | ReportedAt(t, i, e)
      ensures t.db.events[e].status == if t.replies[i].answer.Claimed? then PROCESSED else IGNORED
    {
      assert ReplyTrue(t.db, t.replies[i]);
    }
  }

  /** A committed event id is final: its row never changes, and no later delivery of it reports anything again. */
  lemma RecordedEventIsNeverActedOnAgain(stock: seq<int>, steps: seq<Step>, more: seq<Step>, e: EventId, i: nat)
    requires e in Reached(stock, steps).db.events
    requires ReportedAt(Run(Reached(stock, steps), more), i, e)
    ensures i < |Reached(stock, steps).replies|
    ensures EventsEvolve(Reached(stock, steps).db.events, Run(Reached(stock, steps), more).db.events)
  {
    var s, t := Reached(stock, steps), Run(Reached(stock, steps), more);
    ReachedInv(stock, steps);
    RunKeepsInv(s, more);
    assert ReplyTrue(t.db, t.replies[i]);
    assert EventOk(s, e);
    var k: nat :| ReportedAt(s, k, e);
    assert ReportedAt(t, k, e) && ReportsSomeEvent(t.replies[k]) && ReportsSomeEvent(t.replies[i]);
  }

  /** The client is working on a delivery of event e: about to record it, or inside its claim. */
  predicate Carries(pc: Pc, e: EventId) {
    match pc
    case Recording(event, _, _) => event == e
    case ClaimBegun(j) => j.event == Some(e)
    case ClaimRecorded(j) => j.event == Some(e)
    case ClaimLocked(j) => j.event == Some(e)
    case ClaimChecked(j) => j.event == Some(e)
    case ClaimClear(j) => j.event == Some(e)
    case ClaimLost(j) => j.event == Some(e)
    case ClaimDecided(j, _) => j.event == Some(e)
    case ClaimMarked(j, _) => j.event == Some(e)
    case _ => false
  }

  /** The client is past its transaction: recovering a duplicate, or in the order step of a settled payment. */
  predicate AfterTheClaim(pc: Pc) {
    pc.Recovering? || pc.Settling? || pc.PayRead? || pc.PayClaimed?
  }

  /**
   Once an event id is committed, no client that carries it changes any row. All it can come to is a duplicate's
   recovery, which pays a waiting order at most: see `DuplicatesOnlyPay`.
   */
  lemma RecordedEventMovesNoPayment(stock: seq<int>, steps: seq<Step>, step: Step, e: EventId)
    requires e in Reached(stock, steps).db.events && !IsSystemStep(step)
    requires Carries(At(Reached(stock, steps), step.c), e)
    ensures Apply(Reached(stock, steps), step).db == Reached(stock, steps).db
    ensures
      var pc := At(Apply(Reached(stock, steps), step), step.c);
      Carries(pc, e) || AfterTheClaim(pc) || pc == Idle
  {
    var s := Reached(stock, steps);
    ReachedInv(stock, steps);
    ClientAt(s, step.c);
    CarriersAreBeforeTheirInsert(s, step.c, e);
    BeforeTheInsertNothingIsWritten(s, step, e);
  }

  /** What a duplicate does, step by step: no payment, event or stock changes, and an order goes at most to PAID. */
  lemma DuplicatesOnlyPay(stock: seq<int>, steps: seq<Step>, step: Step)
    requires !IsSystemStep(step) && AfterTheClaim(At(Reached(stock, steps), step.c))
    ensures
      var s, t := Reached(stock, steps), Apply(Reached(stock, steps), step);
      && t.db == s.db.(orders := t.db.orders) && |t.db.orders| == |s.db.orders|
      && (forall o :: 0 <= o < |s.db.orders| ==> SameOrHealed(s.db.orders[o], t.db.orders[o]))
      && (AfterTheClaim(At(t, step.c)) || At(t, step.c) == Idle)
  {
    var s := Reached(stock, steps);
    ReachedInv(stock, steps);
    ClientAt(s, step.c);
    OnlyPays(s, step);
  }

  lemma OnlyPays(s: State, step: Step)
    requires !IsSystemStep(step) && AfterTheClaim(At(s, step.c)) && ClientOk(s, step.c, At(s, step.c))
    ensures Apply(s, step).db == s.db.(orders := Apply(s, step).db.orders)
    ensures |Apply(s, step).db.orders| == |s.db.orders|
    ensures forall o :: 0 <= o < |s.db.orders| ==> SameOrHealed(s.db.orders[o], Apply(s, step).db.orders[o])
    ensures AfterTheClaim(At(Apply(s, step), step.c)) || At(Apply(s, step), step.c) == Idle
  {
    if !IsMove(step) {
      OnlyCommitsToPaid(s, step);
    }
  }

  lemma OnlyCommitsToPaid(s: State, step: Step)
    requires !IsSystemStep(step) && !IsMove(step)
    requires AfterTheClaim(At(s, step.c)) && ClientOk(s, step.c, At(s, step.c))
    ensures Apply(s, step) == if step.SCommitPaid? then CommitPaid(s, step.c) else s
  {
  }

  lemma CarriersAreBeforeTheirInsert(s: State, c: ClientId, e: EventId)
    requires ClientOk(s, c, At(s, c)) && Carries(At(s, c), e) && e in s.db.events
    ensures At(s, c).Recording? || At(s, c).ClaimBegun?
  {
  }

  lemma BeforeTheInsertNothingIsWritten(s: State, step: Step, e: EventId)
    requires !IsSystemStep(step) && Carries(At(s, step.c), e) && e in s.db.events
    requires At(s, step.c).Recording? || At(s, step.c).ClaimBegun?
    ensures Apply(s, step).db == s.db
    ensures
      var pc := At(Apply(s, step), step.c);
      Carries(pc, e) || AfterTheClaim(pc) || pc == Idle
  {
    if !IsMove(step) {
      CommitsNeedADecision(s, step, e);
    }
  }

  lemma CommitsNeedADecision(s: State, step: Step, e: EventId)
    requires !IsSystemStep(step) && !IsMove(step) && Carries(At(s, step.c), e) && e in s.db.events
    requires At(s, step.c).Recording? || At(s, step.c).ClaimBegun?
    ensures Apply(s, step).db == s.db
    ensures
      var pc := At(Apply(s, step), step.c);
      Carries(pc, e) || AfterTheClaim(pc) || pc == Idle
  {
  }

  // ---------- Orders and stock ----------

  /** Stock plus the units held by non-cancelled orders never changes, for any listing on any schedule. */
  lemma StockIsConserved(stock: seq<int>, steps: seq<Step>, k: nat)
    requires k < |stock|
    ensures |Reached(stock, steps).db.stock| == |stock|
    ensures Reached(stock, steps).db.stock[k] + Reserved(Reached(stock, steps).db.orders, k) == stock[k]
  {
    ReachedInv(stock, steps);
    OpeningIsFixed(Init(stock), steps);
  }

  lemma OpeningIsFixed(s: State, steps: seq<Step>)
    requires Inv(s)
    ensures Run(s, steps).opening == s.opening
  {
    RunKeepsInv(s, steps);
  }

  /** Cancelling and paying race for one move: no order's history ever holds both. */
  lemma CancelAndPayNeverBothWin(stock: seq<int>, steps: seq<Step>, o: nat)
    requires o < |Reached(stock, steps).db.orders|
    ensures O.IsPath(Reached(stock, steps).db.orders[o].history)
    ensures !(O.PAID in Reached(stock, steps).db.orders[o].history
            && O.CANCELLED in Reached(stock, steps).db.orders[o].history)
  {
    ReachedInv(stock, steps);
    assert OrderOk(Reached(stock, steps).db, o);
    O.NeverPaidAndCancelled(Reached(stock, steps).db.orders[o].history);
  }
}
