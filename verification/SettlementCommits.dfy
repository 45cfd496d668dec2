/** The steps that change committed rows keep the invariant, and so does every step. */
module SettlementCommits {
  import opened Options
  import opened SettlementGate
  import opened SettlementMachine
  import opened SettlementInvariant
  import opened SettlementSteps
  import opened Stock
  import P = PaymentLifecycle
  import O = OrderLifecycle

  // ---------- Pieces shared by the commits ----------

  /** Replies grow by at most one; the new one won a payment that was open and reports an event not yet recorded. */
  ghost predicate RepliesGrow(s: State, t: State) {
    && s.replies <= t.replies
    && |t.replies| <= |s.replies| + 1
    && (|t.replies| > |s.replies| ==>
          var last := t.replies[|s.replies|];
          && ReplyTrue(t.db, last)
          && (Won(last) ==> last.payment < |s.db.payments| && P.Claimable(s.db.payments[last.payment].status))
          && (ReportsSomeEvent(last) ==> last.event.value !in s.db.events))
  }

  lemma RepliesStay(s: State, t: State)
    requires DataOk(s) && Evolves(s.db, t.db) && RepliesGrow(s, t)
    ensures RepliesTrue(t) && RepliesDistinct(t)
  {
    forall i | 0 <= i < |t.replies|
      ensures ReplyTrue(t.db, t.replies[i])
    {
      if i < |s.replies| {
        ReplyStays(s.db, t.db, s.replies[i]);
      }
    }
    forall i, j | 0 <= i < j < |t.replies|
      ensures !(Won(t.replies[i]) && Won(t.replies[j]) && t.replies[i].payment == t.replies[j].payment)
      ensures !(ReportsSomeEvent(t.replies[i]) && ReportsSomeEvent(t.replies[j])
              && t.replies[i].event == t.replies[j].event)
    {
      assert t.replies[i] == s.replies[i] && ReplyTrue(s.db, s.replies[i]);
      if j < |s.replies| {
        assert t.replies[j] == s.replies[j];
      }
    }
  }

  lemma ReplyStays(a: Database, b: Database, reply: Reply)
    requires Evolves(a, b) && ReplyTrue(a, reply)
    ensures ReplyTrue(b, reply)
  {
    if reply.SuccessReply? {
      AnswerStays(a, b, reply.payment, reply.answer);
    }
  }

  lemma EndsStay(s: State, t: State)
    requires EndsAreWon(s) && PaymentsEvolve(s.db.payments, t.db.payments) && s.replies <= t.replies
    requires forall p :: 0 <= p < |t.db.payments| && P.Terminal(t.db.payments[p].status)
                         && !(p < |s.db.payments| && P.Terminal(s.db.payments[p].status))
               ==> LastWon(t, p)
    ensures EndsAreWon(t)
  {
    forall p | 0 <= p < |t.db.payments| && P.Terminal(t.db.payments[p].status)
      ensures exists i: nat :: WonAt(t, i, p)
    {
      if p < |s.db.payments| && P.Terminal(s.db.payments[p].status) {
        var i: nat :| WonAt(s, i, p);
        assert WonAt(t, i, p);
      } else {
        assert WonAt(t, |t.replies| - 1, p);
      }
    }
  }

  predicate LastWon(t: State, p: nat) {
    t.replies != [] && WonAt(t, |t.replies| - 1, p)
  }

  lemma EventsStay(s: State, t: State)
    requires EventsOk(s) && s.replies <= t.replies && PaymentsEvolve(s.db.payments, t.db.payments)
    requires forall e :: e in t.db.events && e in s.db.events ==> t.db.events[e] == s.db.events[e]
    requires forall e :: e in t.db.events && e !in s.db.events ==> EventOk(t, e)
    ensures EventsOk(t)
  {
    forall e | e in t.db.events
      ensures EventOk(t, e)
    {
      if e in s.db.events {
        EventStays(s, t, e);
      }
    }
  }

  /** Orders that a step leaves alone stay sound as long as payments only evolve. */
  lemma OrdersStay(a: Database, b: Database)
    requires OrdersOk(a) && Evolves(a, b) && b.orders == a.orders
    ensures OrdersOk(b)
  {
    forall o | 0 <= o < |b.orders|
      ensures OrderOk(b, o)
    {
      OrderStays(a, b, o);
    }
  }

  lemma OrderStays(a: Database, b: Database, o: nat)
    requires o < |a.orders| && OrderOk(a, o) && Evolves(a, b) && b.orders[o] == a.orders[o]
    ensures OrderOk(b, o)
  {
    if O.Collected(b.orders[o].status) {
      var p: nat :| Pays(a, p, o);
      PaysStays(a, b, p, o);
    }
  }

  /** Payments keep their soundness where only other rows change. */
  lemma PaymentsStay(a: Database, b: Database)
    requires PaymentsOk(a) && |a.orders| <= |b.orders| && b.payments == a.payments
    ensures PaymentsOk(b)
  {
    forall p | 0 <= p < |b.payments| ensures PaymentOk(b, b.payments[p]) {
      assert PaymentOk(a, a.payments[p]);
    }
  }

  /** Steps that belong to no client: everybody has to be left undisturbed. */
  lemma SystemStepKeepsClients(s: State, t: State)
    requires ClientsOk(s) && t.clients == s.clients && t.owner == s.owner
    requires Evolves(s.db, t.db) && t.db.events == s.db.events
    requires forall p :: 0 <= p < |t.db.payments| && t.db.payments[p].status == P.SUCCESS ==> Settled(s.db, p)
    requires forall p :: 0 <= p < |s.db.payments| && PaymentRow(p) in s.owner ==>
               t.db.payments[p].status == s.db.payments[p].status
    requires forall o :: 0 <= o < |s.db.orders| ==> t.db.orders[o].status == s.db.orders[o].status
    requires forall q, r :: 0 <= q < |t.db.payments| ==> !NewlyHolds(s.db, t.db, q, r)
    ensures ClientsOk(t)
  {
    forall d | d in t.clients ensures ClientOk(t, d, t.clients[d]) {
      ClientStays(s, t, d, s.clients[d]);
    }
  }

  // ---------- Rows other services create ----------

  lemma PlaceOrderKeepsInv(s: State, totalCents: int, items: seq<Item>, lockKey: int)
    requires Inv(s)
    ensures Inv(PlaceOrder(s, totalCents, items, lockKey)) && Later(s, PlaceOrder(s, totalCents, items, lockKey))
  {
    var t := PlaceOrder(s, totalCents, items, lockKey);
    RepliesStay(s, t);
    EndsStay(s, t);
    EventsStay(s, t);
    PaymentsStay(s.db, t.db);
    forall o | 0 <= o < |t.db.orders| ensures OrderOk(t.db, o) {
      if o < |s.db.orders| {
        OrderStays(s.db, t.db, o);
      }
    }
    forall k | 0 <= k < |s.opening| ensures t.db.stock[k] + Reserved(t.db.orders, k) == s.opening[k] {
      assert t.db.orders[..|t.db.orders| - 1] == s.db.orders;
    }
    SystemStepKeepsClients(s, t);
  }

  lemma CreatePaymentKeepsInv(s: State, o: nat, paystack: bool, amountCents: int, currency: Currency,
                              reference: Reference)
    requires Inv(s)
    ensures Inv(CreatePayment(s, o, paystack, amountCents, currency, reference))
    ensures Later(s, CreatePayment(s, o, paystack, amountCents, currency, reference))
  {
    var t := CreatePayment(s, o, paystack, amountCents, currency, reference);
    if t != s {
      assert Later(s, t);
      assert PaymentsOk(t.db) && OneSuccess(t.db) by {
        forall p | 0 <= p < |t.db.payments| ensures PaymentOk(t.db, t.db.payments[p]) {
          if p < |s.db.payments| {
            assert PaymentOk(s.db, s.db.payments[p]);
          }
        }
      }
      PaymentsOnlyKeepInv(s, t);
    }
  }

  /** A system step on payments alone that settles nothing. */
  lemma PaymentsOnlyKeepInv(s: State, t: State)
    requires Inv(s) && Later(s, t) && t == s.(db := s.db.(payments := t.db.payments))
    requires PaymentsOk(t.db) && OneSuccess(t.db)
    requires forall p :: 0 <= p < |t.db.payments| && P.Terminal(t.db.payments[p].status)
               ==> p < |s.db.payments| && t.db.payments[p] == s.db.payments[p]
    requires forall p :: 0 <= p < |s.db.payments| && PaymentRow(p) in s.owner ==>
               t.db.payments[p].status == s.db.payments[p].status
    ensures Inv(t)
  {
    RepliesStay(s, t);
    EndsStay(s, t);
    EventsStay(s, t);
    OrdersStay(s.db, t.db);
    SystemStepKeepsClients(s, t);
  }

  lemma InitialisedKeepsPayments(s: State, p: nat, echoed: Option<Reference>)
    requires Inv(s) && Initialised(s, p, echoed) != s
    ensures PaymentsOk(Initialised(s, p, echoed).db) && OneSuccess(Initialised(s, p, echoed).db)
    ensures Later(s, Initialised(s, p, echoed))
  {
    var t := Initialised(s, p, echoed);
    assert PaymentOk(s.db, s.db.payments[p]);
    InitialisedRowIsOk(s.db, t.db, s.db.payments[p], t.db.payments[p], echoed);
    forall q | 0 <= q < |t.db.payments| ensures PaymentOk(t.db, t.db.payments[q]) {
      assert PaymentOk(s.db, s.db.payments[q]);
    }
  }

  lemma InitialisedRowIsOk(a: Database, b: Database, was: Payment, row: Payment, echoed: Option<Reference>)
    requires PaymentOk(a, was) && was.status == P.PENDING && b.orders == a.orders
    requires
      || row == was.(providerReference := echoed)
      || row == was.(providerReference := echoed, status := P.PROCESSING, history := was.history + [P.PROCESSING])
    ensures PaymentOk(b, row)
  {
    assert P.CanTransition(P.PENDING, P.PROCESSING);
  }

  lemma InitialisedKeepsInv(s: State, p: nat, echoed: Option<Reference>)
    requires Inv(s)
    ensures Inv(Initialised(s, p, echoed)) && Later(s, Initialised(s, p, echoed))
  {
    if Initialised(s, p, echoed) != s {
      InitialisedKeepsPayments(s, p, echoed);
      PaymentsOnlyKeepInv(s, Initialised(s, p, echoed));
    }
  }

  // ---------- Events and claims ----------

  lemma RecordEventKeepsInv(s: State, c: ClientId)
    requires Inv(s)
    ensures Inv(RecordEvent(s, c)) && Later(s, RecordEvent(s, c))
  {
    var t := RecordEvent(s, c);
    ClientAt(s, c);
    if t == s {
    } else if t.db == s.db {
      MoveKeepsInv(s, t, c);
    } else {
      RecordingKeepsData(s, t, At(s, c).event, At(s, c).entry);
      RecordEventSparesOthers(s, c);
      ClientsStay(s, t, c);
    }
  }

  lemma RecordEventSparesOthers(s: State, c: ClientId)
    requires Evolves(s.db, RecordEvent(s, c).db)
    ensures OthersUndisturbed(s, RecordEvent(s, c), c) || RecordEvent(s, c) == s
  {
  }

  lemma RecordingKeepsData(s: State, t: State, e: EventId, entry: EventRow)
    requires Inv(s) && e !in s.db.events && t.opening == s.opening && t.replies == s.replies
    requires t.db == s.db.(events := s.db.events[e := entry]) && EventOk(t, e)
    ensures DataOk(t) && Later(s, t)
  {
    RepliesStay(s, t);
    EndsStay(s, t);
    EventsStay(s, t);
    PaymentsStay(s.db, t.db);
    OrdersStay(s.db, t.db);
  }

  /** The claim enters the unique indexes only where nobody is. */
  lemma SuccessKeepsKeysUnique(s: State, c: ClientId, j: Job, b: Database)
    requires PaymentsOk(s.db) && UniqueColumns(s.db) && MayCommitSuccess(s, c, j)
    requires b.payments == s.db.payments[j.payment := SettledRow(s.db.payments[j.payment], j)]
    ensures UniqueColumns(b)
  {
    var p := j.payment;
    assert PaymentOk(s.db, s.db.payments[p]);
    forall r | HoldsKey(b.payments[p], r)
      ensures r in KeysOf(j) && !TakenByAnother(s.db.payments, p, r)
    {
    }
  }

  /** The heart of the claim: what its commit does to the payments, given the lock and the sibling read. */
  lemma SuccessKeepsPayments(s: State, c: ClientId, j: Job, b: Database)
    requires DataOk(s) && MayCommitSuccess(s, c, j)
    requires b.payments == s.db.payments[j.payment := SettledRow(s.db.payments[j.payment], j)]
             && b.orders == s.db.orders
    ensures PaymentsOk(b) && OneSuccess(b) && UniqueColumns(b) && PaymentsEvolve(s.db.payments, b.payments)
  {
    SuccessKeepsKeysUnique(s, c, j, b);
    var row := s.db.payments[j.payment];
    assert PaymentOk(s.db, row);
    P.ClaimableIsNotTerminal(row.status);
    assert PaymentOk(b, SettledRow(row, j));
    forall p | 0 <= p < |b.payments| ensures PaymentOk(b, b.payments[p]) {
      assert PaymentOk(s.db, s.db.payments[p]);
    }
  }

  lemma CommitClaimKeepsInv(s: State, c: ClientId)
    requires Inv(s)
    ensures Inv(CommitClaim(s, c)) && Later(s, CommitClaim(s, c))
  {
    var pc := At(s, c);
    if pc.ClaimMarked? || (pc.ClaimDecided? && pc.job.event.None?) {
      ClientAt(s, c);
      CommittedClaimKeepsData(s, CommitClaim(s, c), c, pc.job, pc.answer);
      CommitClaimSparesOthers(s, c, pc.job, pc.answer);
      ClientsStay(s, CommitClaim(s, c), c);
    }
  }

  /** What the commit of a decided claim writes. */
  predicate ClaimCommitted(s: State, t: State, j: Job, a: SuccessAnswer) {
    && j.payment < |s.db.payments|
    && t.opening == s.opening
    && t.replies == s.replies + [SuccessReply(j.payment, a, j.event)]
    && t.db.orders == s.db.orders && t.db.stock == s.db.stock
    && t.db.events == EventsAfter(s.db.events, j, a)
    && t.db.payments == if a.Claimed? then s.db.payments[j.payment := SettledRow(s.db.payments[j.payment], j)]
       else s.db.payments
  }

  lemma CommittedClaimKeepsData(s: State, t: State, c: ClientId, j: Job, a: SuccessAnswer)
    requires DataOk(s) && DecisionOk(s, c, j, a) && ClaimCommitted(s, t, j, a)
    ensures DataOk(t) && Later(s, t)
  {
    CommittedClaimKeepsPayments(s, t, c, j, a);
    CommittedClaimKeepsReplies(s, t, c, j, a);
    CommittedClaimKeepsEvents(s, t, c, j, a);
    OrdersStay(s.db, t.db);
  }

  lemma CommittedClaimKeepsPayments(s: State, t: State, c: ClientId, j: Job, a: SuccessAnswer)
    requires DataOk(s) && DecisionOk(s, c, j, a) && ClaimCommitted(s, t, j, a)
    ensures PaymentsOk(t.db) && OneSuccess(t.db) && UniqueColumns(t.db) && Evolves(s.db, t.db)
  {
    if a.Claimed? {
      SuccessKeepsPayments(s, c, j, t.db);
    } else {
      PaymentsStay(s.db, t.db);
    }
  }

  lemma CommittedClaimKeepsReplies(s: State, t: State, c: ClientId, j: Job, a: SuccessAnswer)
    requires DataOk(s) && DecisionOk(s, c, j, a) && ClaimCommitted(s, t, j, a) && Evolves(s.db, t.db)
    ensures RepliesTrue(t) && RepliesDistinct(t) && EndsAreWon(t)
  {
    NewClaimReply(s, t, c, j, a);
    RepliesStay(s, t);
    if a.Claimed? {
      assert LastWon(t, j.payment);
    }
    EndsStay(s, t);
  }

  lemma NewClaimReply(s: State, t: State, c: ClientId, j: Job, a: SuccessAnswer)
    requires DecisionOk(s, c, j, a) && ClaimCommitted(s, t, j, a) && Evolves(s.db, t.db)
    ensures RepliesGrow(s, t)
  {
    if !a.Claimed? {
      AnswerStays(s.db, t.db, j.payment, a);
    }
  }

  /** The event row a claim leaves says what it was told and what it answered. */
  lemma CommittedClaimKeepsEvents(s: State, t: State, c: ClientId, j: Job, a: SuccessAnswer)
    requires DataOk(s) && DecisionOk(s, c, j, a) && ClaimCommitted(s, t, j, a) && Evolves(s.db, t.db)
    ensures EventsOk(t)
  {
    if j.event.Some? {
      var e := j.event.value;
      SeenStays(s.db, t.db, e, j.seen.value);
      assert ReportedAt(t, |t.replies| - 1, e);
      assert EventOk(t, e);
    }
    EventsStay(s, t);
  }

  /** Only the lock holder's own order gains a success, and only the key holder's own event is recorded. */
  lemma CommitClaimSparesOthers(s: State, c: ClientId, j: Job, a: SuccessAnswer)
    requires Inv(s) && DecisionOk(s, c, j, a) && Evolves(s.db, CommitClaim(s, c).db)
    requires At(s, c) == ClaimMarked(j, a) || (At(s, c) == ClaimDecided(j, a) && j.event.None?)
    ensures OthersUndisturbed(s, CommitClaim(s, c), c)
  {
    var t := CommitClaim(s, c);
    forall d | d != c ensures Undisturbed(s, t, d) {
      assert KeepsLocks(s, t, d);
      ClaimEntersItsOwnKeys(s, t, c, j, a, d);
    }
  }

  lemma ClaimEntersItsOwnKeys(s: State, t: State, c: ClientId, j: Job, a: SuccessAnswer, d: ClientId)
    requires PaymentsOk(s.db) && DecisionOk(s, c, j, a) && ClaimCommitted(s, t, j, a) && d != c
    ensures KeysOutside(s, t, d)
  {
    assert PaymentOk(s.db, s.db.payments[j.payment]);
    forall q, r | 0 <= q < |t.db.payments| && NewlyHolds(s.db, t.db, q, r)
      ensures !Owns(s, r, d)
    {
      assert q == j.payment && a.Claimed? && r in KeysOf(j);
    }
  }

  lemma CommitFailureKeepsInv(s: State, c: ClientId)
    requires Inv(s)
    ensures Inv(CommitFailure(s, c)) && Later(s, CommitFailure(s, c))
  {
    if At(s, c).FailDecided? {
      ClientAt(s, c);
      var FailDecided(p, to, claimed) := At(s, c);
      CommittedFailureKeepsData(s, CommitFailure(s, c), p, to, claimed);
      CommitFailureSparesOthers(s, c, p, to, claimed);
      ClientsStay(s, CommitFailure(s, c), c);
    }
  }

  /** What the commit of a decided failure claim writes. */
  predicate FailureCommitted(s: State, t: State, p: nat, to: P.PaymentStatus, claimed: bool) {
    && p < |s.db.payments|
    && t.opening == s.opening
    && t.replies == s.replies + [FailureReply(p, to, claimed)]
    && t.db == s.db.(payments := t.db.payments)
    && t.db.payments == if claimed then s.db.payments[p := FailedRow(s.db.payments[p], to)] else s.db.payments
  }

  /** The failure claim may still be committed as it was decided. */
  predicate FailureSound(s: State, p: nat, to: P.PaymentStatus, claimed: bool) {
    && p < |s.db.payments|
    && (to == P.FAILED || to == P.CANCELLED)
    && if claimed then P.Claimable(s.db.payments[p].status) else P.Terminal(s.db.payments[p].status)
  }

  lemma CommittedFailureKeepsData(s: State, t: State, p: nat, to: P.PaymentStatus, claimed: bool)
    requires DataOk(s) && FailureSound(s, p, to, claimed) && FailureCommitted(s, t, p, to, claimed)
    ensures DataOk(t) && Later(s, t)
  {
    CommittedFailureKeepsPayments(s, t, p, to, claimed);
    CommittedFailureKeepsReplies(s, t, p, to, claimed);
    EventsStay(s, t);
    OrdersStay(s.db, t.db);
  }

  lemma CommittedFailureKeepsPayments(s: State, t: State, p: nat, to: P.PaymentStatus, claimed: bool)
    requires DataOk(s) && FailureSound(s, p, to, claimed) && FailureCommitted(s, t, p, to, claimed)
    ensures PaymentsOk(t.db) && OneSuccess(t.db) && Evolves(s.db, t.db)
  {
    P.ClaimableIsNotTerminal(s.db.payments[p].status);
    forall q | 0 <= q < |t.db.payments| ensures PaymentOk(t.db, t.db.payments[q]) {
      assert PaymentOk(s.db, s.db.payments[q]);
      if claimed && q == p {
        FailedRowIsOk(s.db, t.db, s.db.payments[p], to);
      }
    }
  }

  lemma FailedRowIsOk(a: Database, b: Database, row: Payment, to: P.PaymentStatus)
    requires PaymentOk(a, row) && b.orders == a.orders
    requires P.Claimable(row.status) && (to == P.FAILED || to == P.CANCELLED)
    ensures PaymentOk(b, FailedRow(row, to))
  {
    P.ClaimableIsNotTerminal(row.status);
  }

  lemma CommittedFailureKeepsReplies(s: State, t: State, p: nat, to: P.PaymentStatus, claimed: bool)
    requires DataOk(s) && FailureSound(s, p, to, claimed) && FailureCommitted(s, t, p, to, claimed)
    requires Evolves(s.db, t.db)
    ensures RepliesTrue(t) && RepliesDistinct(t) && EndsAreWon(t)
  {
    P.ClaimableIsNotTerminal(s.db.payments[p].status);
    assert claimed ==> LastWon(t, p);
    RepliesStay(s, t);
    EndsStay(s, t);
  }

  lemma CommitFailureSparesOthers(s: State, c: ClientId, p: nat, to: P.PaymentStatus, claimed: bool)
    requires At(s, c) == FailDecided(p, to, claimed) && ClientOk(s, c, At(s, c))
    requires Evolves(s.db, CommitFailure(s, c).db)
    ensures OthersUndisturbed(s, CommitFailure(s, c), c)
  {
    var t := CommitFailure(s, c);
    forall d | d != c ensures Undisturbed(s, t, d) {
      assert KeepsLocks(s, t, d);
    }
  }

  // ---------- Orders ----------

  /** Moving one order changes what it holds of each listing by exactly the change in that order. */
  lemma {:induction false} ReservedAfterMove(orders: seq<Order>, o: nat, order: Order, k: nat)
    requires o < |orders|
    ensures Reserved(orders[o := order], k) == Reserved(orders, k) - Held(orders[o], k) + Held(order, k)
  {
    var n := |orders| - 1;
    if o < n {
      ReservedAfterMove(orders[..n], o, order, k);
      assert orders[o := order][..n] == orders[..n][o := order];
    } else {
      assert orders[o := order][..n] == orders[..n];
    }
  }

  /** A move of a locked order along its lifecycle, committed by c. */
  ghost predicate MovesOrder(s: State, t: State, c: ClientId, o: nat, to: O.OrderStatus)
    requires o < |s.db.orders|
  {
    && OrderLocked(s, c, o, s.db.orders[o].status)
    && O.CanTransition(s.db.orders[o].status, to)
    && t.db.payments == s.db.payments && t.db.events == s.db.events
    && t.db.orders == WithStatus(s, o, to).db.orders
    && |t.db.stock| == |s.db.stock|
    && t == EndTransaction(s.(db := t.db), c, Idle)
  }

  lemma MoveOrderKeepsInv(s: State, t: State, c: ClientId, o: nat, to: O.OrderStatus)
    requires Inv(s) && o < |s.db.orders| && MovesOrder(s, t, c, o, to)
    requires O.Collected(to) ==> exists p: nat :: Pays(s.db, p, o)
    requires Conserved(t)
    ensures Inv(t) && Later(s, t)
  {
    MoveOrderKeepsOrders(s, t, c, o, to);
    MoveOrderKeepsRecords(s, t);
    MoveOrderSparesOthers(s, t, c, o, to);
    ClientsStay(s, t, c);
  }

  lemma MoveOrderKeepsOrders(s: State, t: State, c: ClientId, o: nat, to: O.OrderStatus)
    requires OrdersOk(s.db) && o < |s.db.orders| && MovesOrder(s, t, c, o, to)
    requires O.Collected(to) ==> exists p: nat :: Pays(s.db, p, o)
    ensures OrdersOk(t.db) && Later(s, t)
  {
    assert OrderOk(s.db, o);
    assert OrdersEvolve(s.db.orders, t.db.orders);
    forall q | 0 <= q < |t.db.orders| ensures OrderOk(t.db, q) {
      if q != o {
        OrderStays(s.db, t.db, q);
      } else if O.Collected(to) {
        var p: nat :| Pays(s.db, p, o);
        PaysStays(s.db, t.db, p, o);
      }
    }
  }

  lemma MoveOrderKeepsRecords(s: State, t: State)
    requires DataOk(s) && Evolves(s.db, t.db) && OrdersOk(t.db) && Conserved(t)
    requires t.db.payments == s.db.payments && t.db.events == s.db.events && t.replies == s.replies
    ensures DataOk(t)
  {
    RepliesStay(s, t);
    EndsStay(s, t);
    EventsStay(s, t);
    PaymentsStay(s.db, t.db);
  }

  lemma MoveOrderSparesOthers(s: State, t: State, c: ClientId, o: nat, to: O.OrderStatus)
    requires o < |s.db.orders| && MovesOrder(s, t, c, o, to) && Evolves(s.db, t.db)
    ensures OthersUndisturbed(s, t, c)
  {
  }

  lemma SameStockConserved(s: State, t: State, o: nat, to: O.OrderStatus)
    requires Conserved(s) && o < |s.db.orders| && t.opening == s.opening && t.db.stock == s.db.stock
    requires t.db.orders == WithStatus(s, o, to).db.orders
    requires (s.db.orders[o].status == O.CANCELLED) == (to == O.CANCELLED)
    ensures Conserved(t)
  {
    forall k | 0 <= k < |s.opening| ensures t.db.stock[k] + Reserved(t.db.orders, k) == s.opening[k] {
      ReservedAfterMove(s.db.orders, o, t.db.orders[o], k);
    }
  }

  lemma CommitPaidKeepsInv(s: State, c: ClientId)
    requires Inv(s)
    ensures Inv(CommitPaid(s, c)) && Later(s, CommitPaid(s, c))
  {
    var t := CommitPaid(s, c);
    if At(s, c).PayClaimed? {
      ClientAt(s, c);
      var p := At(s, c).p;
      var o := s.db.payments[p].order;
      SameStockConserved(s, t, o, O.PAID);
      MoveOrderKeepsInv(s, t, c, o, O.PAID);
    }
  }

  lemma CommitCancelKeepsInv(s: State, c: ClientId)
    requires Inv(s)
    ensures Inv(CommitCancel(s, c)) && Later(s, CommitCancel(s, c))
  {
    var t := CommitCancel(s, c);
    if t != s {
      ClientAt(s, c);
      var Restoring(o, items, done) := At(s, c);
      forall k | 0 <= k < |s.opening| ensures t.db.stock[k] + Reserved(t.db.orders, k) == s.opening[k] {
        ReservedAfterMove(s.db.orders, o, t.db.orders[o], k);
        RestockAddsUnits(s.db.stock, items, k);
      }
      MoveOrderKeepsInv(s, t, c, o, O.CANCELLED);
    }
  }

  lemma CommitFulfilledKeepsInv(s: State, c: ClientId)
    requires Inv(s)
    ensures Inv(CommitFulfilled(s, c)) && Later(s, CommitFulfilled(s, c))
  {
    var t := CommitFulfilled(s, c);
    if At(s, c).FulfilClaimed? {
      ClientAt(s, c);
      var FulfilClaimed(o, from, step) := At(s, c);
      assert OrderOk(s.db, o);
      SameStockConserved(s, t, o, step);
      MoveOrderKeepsInv(s, t, c, o, step);
    }
  }

  // ---------- Every step ----------

  predicate Creates(step: Step) {
    step.SPlaceOrder? || step.SCreatePayment? || step.SInitialised? || step.SRecordEvent?
  }

  lemma CreationKeepsInv(s: State, step: Step)
    requires Inv(s) && Creates(step)
    ensures Inv(Apply(s, step)) && Later(s, Apply(s, step))
  {
    match step
    case SPlaceOrder(t, items, k) => PlaceOrderKeepsInv(s, t, items, k);
    case SCreatePayment(o, y, a, cur, r) => CreatePaymentKeepsInv(s, o, y, a, cur, r);
    case SInitialised(p, echoed) => InitialisedKeepsInv(s, p, echoed);
    case SRecordEvent(c) => RecordEventKeepsInv(s, c);
  }

  lemma CommitKeepsInv(s: State, step: Step)
    requires Inv(s) && !Creates(step) && !IsMove(step)
    ensures Inv(Apply(s, step)) && Later(s, Apply(s, step))
  {
    match step
    case SCommitClaim(c) => CommitClaimKeepsInv(s, c);
    case SCommitFailure(c) => CommitFailureKeepsInv(s, c);
    case SCommitPaid(c) => CommitPaidKeepsInv(s, c);
    case SCommitCancel(c) => CommitCancelKeepsInv(s, c);
    case SCommitFulfilled(c) => CommitFulfilledKeepsInv(s, c);
  }

  lemma StepKeepsInv(s: State, step: Step)
    requires Inv(s)
    ensures Inv(Apply(s, step)) && Later(s, Apply(s, step))
  {
    if Creates(step) {
      CreationKeepsInv(s, step);
    } else if IsMove(step) {
      MoveStepKeepsInv(s, step);
    } else {
      CommitKeepsInv(s, step);
    }
  }

  lemma MoveStepKeepsInv(s: State, step: Step)
    requires Inv(s) && IsMove(step)
    ensures Inv(Apply(s, step)) && Later(s, Apply(s, step))
  {
    if Apply(s, step) != s {
      MoveIsSound(s, step);
      MoveKeepsInv(s, Apply(s, step), step.c);
    }
  }
}
