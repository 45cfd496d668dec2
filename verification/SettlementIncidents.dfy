/**
 Reachable inputs on which an answer is not what it sounds like: a delivery that leaves a settled payment's order
 waiting, and one that is called a duplicate although its event is not on record.
 */
module SettlementIncidents {
  import opened Options
  import opened SettlementGate
  import opened SettlementMachine
  import opened SettlementInvariant
  import opened SettlementTheorems
  import opened SettlementMetadata
  import opened SettlementEffects
  import opened SettlementService
  import P = PaymentLifecycle
  import O = OrderLifecycle

  function Success(amount: int, currency: Currency, reference: Reference): Answer {
    Answer(ReportedSuccess, reference, amount as real, currency)
  }

  /** A status check reads a fresh payment and finds it paid for, by transaction `id`. */
  function Checked(amount: int, currency: Currency, reference: Reference, id: Option<TransactionId>): seq<Step> {
    Fresh(amount, currency, reference) + [SCheckStatus(0, 0, Success(amount, currency, reference), id)]
  }

  /** Its claim commits, and the process dies before the order step. */
  function Crashed(amount: int, currency: Currency, reference: Reference, id: Option<TransactionId>): seq<Step> {
    Claiming(Checked(amount, currency, reference, id)) + [SCommitClaim(0)] + [SCrash(0)]
  }

  /** Another order is placed after that, and paid for by another attempt. */
  function Second(amount: int, currency: Currency, first: Reference, second: Reference, id: TransactionId): seq<Step> {
    Crashed(amount, currency, first, Some(id))
    + [SPlaceOrder(amount, [], 1)] + [SCreatePayment(1, true, amount, currency, second)]
  }

  /** A signed charge event that agrees with such a payment. */
  predicate Charges(d: Delivery, amount: int, currency: Currency, reference: Reference) {
    && d.chargeSuccess && d.reference == Some(reference)
    && d.amount == amount as real && d.currency == Some(currency)
  }

  lemma CheckedRow(amount: int, currency: Currency, reference: Reference, id: Option<TransactionId>)
    requires IsColumnInt(amount)
    ensures
      var s := Reached([], Checked(amount, currency, reference, id));
      && s.db == Reached([], Fresh(amount, currency, reference)).db && |s.db.payments| == 1 && s.owner == map[]
      && s.clients == map[0 := ClaimBegun(CheckJob(s.db, 0, Success(amount, currency, reference), id))]
  {
    var answer := Success(amount, currency, reference);
    FreshRow(amount, currency, reference);
    StatusGateIsCorroboration(Reached([], Fresh(amount, currency, reference)).db.payments[0], answer);
    SettlementMetadata.RunExtends(Fresh(amount, currency, reference), SCheckStatus(0, 0, answer, id));
  }

  /** The crash window: the money is collected, the order still waits, and nobody is at work. */
  lemma CrashedRow(amount: int, currency: Currency, reference: Reference, id: Option<TransactionId>)
    requires IsColumnInt(amount)
    ensures
      var s := Reached([], Crashed(amount, currency, reference, id));
      && |s.db.payments| == 1 && |s.db.orders| == 1 && WaitingFor(s.db, 0) && s.db.payments[0].order == 0
      && s.db.payments[0].paystack && s.db.payments[0].amountCents == amount && s.db.payments[0].currency == currency
      && s.db.payments[0].customerReference == reference && s.db.payments[0].transactionId == id
      && s.db.events == map[] && s.owner == map[] && forall c :: At(s, c) == Idle
  {
    hide Run;
    hide TakeAdvisoryLock, RereadRow, ReadSibling, CasSuccess, CommitClaim, Crash;
    var steps := Checked(amount, currency, reference, id);
    var s := Reached([], steps);
    FreshRow(amount, currency, reference);
    CheckedRow(amount, currency, reference, id);
    ClaimingRuns(steps);
    UndisturbedClaim(s, 0, At(s, 0).job, 0);
    var j := At(s, 0).job;
    CommittedAlone(Reached([], Claiming(steps)), 0, j);
    SettlementMetadata.RunExtends(Claiming(steps) + [SCommitClaim(0)], SCrash(0));
  }

  lemma CommittedAlone(s: State, c: ClientId, j: Job)
    requires At(s, c) == ClaimDecided(j, Claimed) && j.event.None? && j.payment < |s.db.payments|
    requires forall r :: r in s.owner ==> s.owner[r] == c
    ensures
      var t := Crash(CommitClaim(s, c), c);
      && t.db == s.db.(payments := s.db.payments[j.payment := SettledRow(s.db.payments[j.payment], j)])
      && t.owner == map[] && t.clients == s.clients[c := Idle]
  {
  }

  /**
   A fresh, accepted delivery about it is answered `ignored`, is recorded, and leaves the order waiting: for every
   amount, reference and event, with every lock free.
   */
  lemma AFreshDeliveryLeavesTheOrderWaiting(amount: int, currency: Currency, reference: Reference,
                                            id: Option<TransactionId>, d: Delivery, c: ClientId)
    requires IsColumnInt(amount) && Charges(d, amount, currency, reference)
    ensures
      var s, reply := Reached([], Crashed(amount, currency, reference, id)), Some(Success(amount, currency, reference));
      && DeliveryUnblocked(s, c, d, reply) && AcceptedFor(s.db.payments, d, reply) == Some(0)
      && d.event !in s.db.events && d.event in DeliveredTo(s.db, d, reply).events
      && DeliveryOutcome(s.db, d, reply) == Ignored(PaymentAlreadyTerminal)
      && WaitingFor(DeliveredTo(s.db, d, reply), 0)
  {
    hide Run;
    CrashedRow(amount, currency, reference, id);
    AcceptedNewest(Reached([], Crashed(amount, currency, reference, id)).db.payments, d, amount, currency, reference);
  }

  /** The newest payment with this reference passes every gate. */
  lemma AcceptedNewest(rows: seq<Payment>, d: Delivery, amount: int, currency: Currency, reference: Reference)
    requires IsColumnInt(amount) && Charges(d, amount, currency, reference) && rows != []
    requires
      var last := rows[|rows| - 1];
      last.paystack && last.amountCents == amount && last.currency == currency && last.customerReference == reference
    ensures Locate(rows, d) == Found(|rows| - 1)
    ensures AcceptedFor(rows, d, Some(Success(amount, currency, reference))) == Some(|rows| - 1)
  {
    assert (amount as real).Floor == amount;
  }

  lemma SecondRow(amount: int, currency: Currency, first: Reference, second: Reference, id: TransactionId)
    requires IsColumnInt(amount)
    ensures
      var s := Reached([], Second(amount, currency, first, second, id));
      && |s.db.payments| == 2 && s.db.payments[0].transactionId == Some(id)
      && Winnable(s.db, 1) && s.db.payments[1].status == P.PENDING
      && s.db.payments[1].order == 1 && |s.db.orders| == 2 && s.db.orders[1].status == O.PENDING
      && s.db.payments[1].paystack && s.db.payments[1].amountCents == amount && s.db.payments[1].currency == currency
      && s.db.payments[1].customerReference == second
      && s.db.events == map[] && s.owner == map[] && forall c :: At(s, c) == Idle
  {
    hide Run;
    var crashed := Crashed(amount, currency, first, Some(id));
    CrashedRow(amount, currency, first, Some(id));
    SettlementMetadata.RunExtends(crashed, SPlaceOrder(amount, [], 1));
    SettlementMetadata.RunExtends(crashed + [SPlaceOrder(amount, [], 1)],
                                  SCreatePayment(1, true, amount, currency, second));
    forall c ensures At(Reached([], Second(amount, currency, first, second, id)), c) == Idle {
      assert At(Reached([], crashed), c) == Idle;
    }
  }

  /**
   A fresh, accepted delivery for the second order that names the first one's transaction is answered `duplicate`,
   although its event was never seen: it is not recorded, and nothing settles.
   */
  lemma ADuplicateThatIsNotOnRecord(amount: int, currency: Currency, first: Reference, second: Reference,
                                    id: TransactionId, d: Delivery, c: ClientId)
    requires IsColumnInt(amount) && Charges(d, amount, currency, second) && d.transactionId == Some(id)
    ensures
      var s, reply := Reached([], Second(amount, currency, first, second, id)), Some(Success(amount, currency, second));
      && DeliveryUnblocked(s, c, d, reply) && AcceptedFor(s.db.payments, d, reply) == Some(1)
      && d.event !in s.db.events && DeliveryOutcome(s.db, d, reply) == Duplicate
      && DeliveredTo(s.db, d, reply) == s.db && s.db.payments[1].status == P.PENDING
  {
    hide Run;
    var s, reply := Reached([], Second(amount, currency, first, second, id)), Some(Success(amount, currency, second));
    SecondRow(amount, currency, first, second, id);
    AcceptedNewest(s.db.payments, d, amount, currency, second);
    ReachedInv([], Second(amount, currency, first, second, id));
    assert HoldsKey(s.db.payments[0], TransactionKey(id)) && TakenByAnother(s.db.payments, 1, TransactionKey(id));
    FreshDeliverySettles(s.db, d, reply, 1);
  }
}
