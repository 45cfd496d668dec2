/**
 The settlement services as the programs they are: each method is one client's call, statement by
 statement, with arbitrary steps of other clients before every statement. Each statement is a step
 of the protocol, so a call is one schedule of it, and the invariant holds throughout.
 */
module SettlementService {
  import opened Options
  import opened SettlementGate
  import opened SettlementMachine
  import opened SettlementInvariant
  import opened SettlementSteps
  import opened SettlementTheorems
  import opened SettlementEffects
  import opened Stock
  import P = PaymentLifecycle
  import O = OrderLifecycle

  // ---------- Other clients ----------

  /** The step belongs to somebody else, or to no client at all. */
  predicate ByOthers(step: Step, self: ClientId) {
    IsSystemStep(step) || step.c != self
  }

  predicate AllByOthers(steps: seq<Step>, self: ClientId) {
    forall i :: 0 <= i < |steps| ==> ByOthers(steps[i], self)
  }

  lemma OtherClaimsDoNotMoveMe(s: State, step: Step, self: ClientId)
    requires ByOthers(step, self) && IsClaimMove(step)
    ensures At(Apply(s, step), self) == At(s, self)
  {
  }

  lemma OtherCommitsDoNotMoveMe(s: State, step: Step, self: ClientId)
    requires ByOthers(step, self) && !IsMove(step)
    ensures At(Apply(s, step), self) == At(s, self)
  {
  }

  /** No step moves a client it does not belong to. */
  lemma OthersDoNotMoveMe(s: State, step: Step, self: ClientId)
    requires ByOthers(step, self)
    ensures At(Apply(s, step), self) == At(s, self)
  {
    if IsClaimMove(step) {
      OtherClaimsDoNotMoveMe(s, step, self);
    } else if !IsMove(step) {
      OtherCommitsDoNotMoveMe(s, step, self);
    }
  }

  /** The same resources are out of client c's reach. */
  ghost predicate SameLocks(a: State, b: State, c: ClientId) {
    forall r :: Free(a, r, c) <==> Free(b, r, c)
  }

  /** A client takes only what is free to it and gives back only what it holds. */
  lemma OwnStepsKeepLocks(s: State, step: Step, c: ClientId)
    requires !IsSystemStep(step) && step.c == c
    ensures SameLocks(s, Apply(s, step), c)
  {
    if IsClaimMove(step) {
      OwnClaimStepsKeepLocks(s, step, c);
    } else if !IsMove(step) {
      OwnCommitsKeepLocks(s, step, c);
    }
  }

  lemma OwnCommitsKeepLocks(s: State, step: Step, c: ClientId)
    requires !IsSystemStep(step) && !IsMove(step) && step.c == c
    ensures SameLocks(s, Apply(s, step), c)
  {
  }

  lemma OwnClaimStepsKeepLocks(s: State, step: Step, c: ClientId)
    requires IsClaimMove(step) && step.c == c
    ensures SameLocks(s, Apply(s, step), c)
  {
  }

  lemma RunExtends(s: State, steps: seq<Step>, step: Step)
    ensures Run(s, steps + [step]) == Apply(Run(s, steps), step)
  {
    assert (steps + [step])[..|steps|] == steps;
  }

  lemma {:induction false} RunSplits(s: State, first: seq<Step>, rest: seq<Step>)
    ensures Run(s, first + rest) == Run(Run(s, first), rest)
    decreases |rest|
  {
    if rest == [] {
      assert first + rest == first;
    } else {
      RunSplits(s, first, rest[..|rest| - 1]);
      assert (first + rest)[..|first + rest| - 1] == first + rest[..|rest| - 1];
    }
  }

  lemma LongerTraceIsLater(stock: seq<int>, before: seq<Step>, after: seq<Step>)
    requires before <= after
    ensures Later(Reached(stock, before), Reached(stock, after))
  {
    ReachedInv(stock, before);
    RunSplits(Init(stock), before, after[|before|..]);
    assert before + after[|before|..] == after;
    RunKeepsInv(Reached(stock, before), after[|before|..]);
  }

  /** No listing appears or goes away, and an order keeps its items and its cancellation. */
  lemma ListingsStay(stock: seq<int>, before: seq<Step>, after: seq<Step>)
    requires before <= after
    ensures |Reached(stock, after).db.stock| == |Reached(stock, before).db.stock|
  {
    LongerTraceIsLater(stock, before, after);
  }

  lemma OrderStaysPut(stock: seq<int>, before: seq<Step>, after: seq<Step>, o: nat)
    requires before <= after && o < |Reached(stock, before).db.orders|
    ensures o < |Reached(stock, after).db.orders|
    ensures Reached(stock, after).db.orders[o].items == Reached(stock, before).db.orders[o].items
    ensures Reached(stock, before).db.orders[o].status == O.CANCELLED ==>
              Reached(stock, after).db.orders[o].status == O.CANCELLED
  {
    LongerTraceIsLater(stock, before, after);
  }

  lemma MyPlaceIsSound(stock: seq<int>, trace: seq<Step>, c: ClientId)
    ensures ClientOk(Reached(stock, trace), c, At(Reached(stock, trace), c))
  {
    ReachedInv(stock, trace);
    ClientAt(Reached(stock, trace), c);
  }

  /** Between two states: payment p stays settled as it was, and its order only moves forward. */
  predicate Forward(a: Database, b: Database, p: nat) {
    && Settled(a, p) && Settled(b, p) && b.payments[p] == a.payments[p]
    && var o := a.payments[p].order;
       && o < |a.orders| <= |b.orders|
       && b.orders[o].totalCents == a.orders[o].totalCents
       && (a.orders[o].status != O.PENDING ==> b.orders[o].status != O.PENDING)
       && (O.Collected(a.orders[o].status) ==> O.Collected(b.orders[o].status))
       && (a.orders[o].status == O.CANCELLED ==> b.orders[o].status == O.CANCELLED)
  }

  lemma LongerTraceIsForward(stock: seq<int>, before: seq<Step>, after: seq<Step>, p: nat)
    requires before <= after && Settled(Reached(stock, before).db, p)
    ensures Forward(Reached(stock, before).db, Reached(stock, after).db, p)
  {
    LongerTraceIsLater(stock, before, after);
    ReachedInv(stock, before);
    assert PaymentOk(Reached(stock, before).db, Reached(stock, before).db.payments[p]);
  }

  /** What a committed claim has left behind: its answer is true, and its event row says the same. */
  ghost predicate Told(db: Database, job: Job, answer: SuccessAnswer)
    requires job.payment < |db.payments|
  {
    && AnswerTrue(db, job.payment, answer)
    && (job.event.Some? ==>
          job.event.value in db.events && Reports(db.events[job.event.value], job.payment, answer))
  }

  lemma ToldStays(stock: seq<int>, before: seq<Step>, after: seq<Step>, job: Job, answer: SuccessAnswer)
    requires before <= after && job.payment < |Reached(stock, before).db.payments|
             && Told(Reached(stock, before).db, job, answer)
    ensures job.payment < |Reached(stock, after).db.payments| && Told(Reached(stock, after).db, job, answer)
  {
    LongerTraceIsLater(stock, before, after);
    AnswerStays(Reached(stock, before).db, Reached(stock, after).db, job.payment, answer);
  }

  /** The answer a claim has just committed is true of the rows it committed. */
  lemma CommittedReplyIsTrue(stock: seq<int>, trace: seq<Step>)
    ensures Reached(stock, trace).replies != [] ==>
              ReplyTrue(Reached(stock, trace).db, Reached(stock, trace).replies[|Reached(stock, trace).replies| - 1])
  {
    ReachedInv(stock, trace);
  }

  // ---------- Locks a call needs ----------

  /** The index entries of a claim that would settle are reserved by nobody else. */
  predicate KeysFreeFor(s: State, c: ClientId, job: Job) {
    Winnable(s.db, job.payment) && !Clashes(s.db, job) ==> forall r :: r in KeysOf(job) ==> Free(s, r, c)
  }

  /** A payment row that a claim would update is not locked by anybody else. */
  predicate RowFreeFor(s: State, c: ClientId, p: nat) {
    Winnable(s.db, p) ==> Free(s, PaymentRow(p), c)
  }

  predicate OrderFreeFor(s: State, c: ClientId, p: nat) {
    p < |s.db.payments| ==> Free(s, OrderRow(s.db.payments[p].order), c)
  }

  /** The order's advisory key, the row and the index entries if it is to be settled, and the order row are free. */
  predicate ClaimUnblocked(s: State, c: ClientId, job: Job) {
    && Free(s, AdvisoryKey(s, job), c) && RowFreeFor(s, c, job.payment) && KeysFreeFor(s, c, job)
    && OrderFreeFor(s, c, job.payment)
  }

  predicate PaymentUnblocked(s: State, c: ClientId, p: nat) {
    && p < |s.db.payments| && s.db.payments[p].order < |s.db.orders|
    && Free(s, AdvisoryLock(s.db.orders[s.db.payments[p].order].lockKey), c)
    && RowFreeFor(s, c, p) && OrderFreeFor(s, c, p)
  }

  /** The event's key is free, and so is what a claim on the payment it is about would need. */
  predicate DeliveryUnblocked(s: State, c: ClientId, d: Delivery, reply: Option<Answer>) {
    && Free(s, EventKey(d.event), c)
    && (Locate(s.db.payments, d).Found? ==> PaymentUnblocked(s, c, Locate(s.db.payments, d).payment))
    && var p := AcceptedFor(s.db.payments, d, reply);
       p.Some? ==> KeysFreeFor(s, c, WebhookJob(Seen(s.db.payments, d, reply), p.value))
  }

  predicate ActUnblocked(s: State, c: ClientId, p: nat, answer: Answer, id: Option<TransactionId>)
    requires p < |s.db.payments|
  {
    && PaymentUnblocked(s, c, p) && (P.Claimable(s.db.payments[p].status) ==> Free(s, PaymentRow(p), c))
    && KeysFreeFor(s, c, CheckJob(s.db, p, answer, id))
  }

  predicate CheckUnblocked(s: State, c: ClientId, p: nat, provider: Reference -> ProviderReply) {
    p < |s.db.payments| ==>
      && PaymentUnblocked(s, c, p)
      && match Asked(VerificationReferences(s.db.payments[p]), provider)
         case Answered(answer, id) => ActUnblocked(s, c, p, answer, id)
         case _ => true
  }

  lemma StillUnblocked(a: State, b: State, c: ClientId, d: Delivery, reply: Option<Answer>)
    requires b.db == a.db && SameLocks(a, b, c) && DeliveryUnblocked(a, c, d, reply)
    ensures DeliveryUnblocked(b, c, d, reply)
  {
  }

  /** Where a claim leaves its client. */
  function PlaceAfter(job: Job, result: ClaimResult): Pc {
    match result
    case Decided(answer) => ClaimDecided(job, answer)
    case UniqueViolation => if job.event.Some? then Recovering(job.payment) else Idle
    case LockTimeout => Idle
  }

  /** Unique entries are never given up, so a clash stays one. */
  lemma ClashStays(stock: seq<int>, before: seq<Step>, after: seq<Step>, job: Job)
    requires before <= after && Clashes(Reached(stock, before).db, job)
    ensures Clashes(Reached(stock, after).db, job)
  {
    ReachedInv(stock, before);
    LongerTraceIsLater(stock, before, after);
    var a, b := Reached(stock, before).db.payments, Reached(stock, after).db.payments;
    var r :| r in KeysOf(job) && TakenByAnother(a, job.payment, r);
    var q :| 0 <= q < |a| && q != job.payment && HoldsKey(a[q], r);
    assert PaymentOk(Reached(stock, before).db, a[q]);
    assert HoldsKey(b[q], r) && TakenByAnother(b, job.payment, r);
  }

  /** One client's connection. `others` is what everybody else does before each of its statements. */
  class Connection {
    const self: ClientId
    const stock: seq<int>
    var s: State
    var others: seq<seq<Step>>
    ghost var trace: seq<Step>

    /** The database is in a state that a schedule reaches: the one made of all statements so far. */
    ghost predicate Valid()
      reads this
    {
      && s == Reached(stock, trace)
      && forall i :: 0 <= i < |others| ==> AllByOthers(others[i], self)
    }

    constructor (stock: seq<int>, history: seq<Step>, self: ClientId, others: seq<seq<Step>>)
      requires forall i :: 0 <= i < |others| ==> AllByOthers(others[i], self)
      ensures Valid() && this.stock == stock && this.trace == history && this.self == self && this.others == others
    {
      this.stock, this.s, this.self, this.others := stock, Reached(stock, history), self, others;
      this.trace := history;
    }

    /** An await: the other clients run for a while. */
    method Await()
      requires Valid()
      modifies this
      ensures Valid() && old(trace) <= trace && At(s, self) == At(old(s), self)
      ensures old(others) == [] ==> trace == old(trace) && others == []
    {
      if others != [] {
        var steps := others[0];
        others := others[1..];
        for i := 0 to |steps|
          invariant s == Reached(stock, trace) && old(trace) <= trace && At(s, self) == At(old(s), self)
          invariant others == old(others)[1..]
        {
          OthersDoNotMoveMe(s, steps[i], self);
          RunExtends(Init(stock), trace, steps[i]);
          s, trace := Apply(s, steps[i]), trace + [steps[i]];
        }
      }
    }

    /** One statement of this client, in the state as it is. */
    method Now(step: Step)
      requires Valid() && !IsSystemStep(step) && step.c == self
      modifies this
      ensures Ran(old(trace), step) && s == Apply(old(s), step) && others == old(others)
    {
      hide Run;
      RunExtends(Init(stock), trace, step);
      OwnStepsKeepLocks(s, step, self);
      s, trace := Apply(s, step), trace + [step];
    }

    /** One statement of this client, after whatever the others did first: it ran in `mid`, which `at` reaches. */
    method Statement(step: Step) returns (mid: State, ghost at: seq<Step>)
      requires Valid() && !IsSystemStep(step) && step.c == self
      modifies this
      ensures mid == Reached(stock, at) && Ran(at, step) && s == Apply(mid, step)
    {
      Await();
      mid, at := s, trace;
      Now(step);
    }

    // ---------- The statements, one by one ----------

    /** The call was one statement `step`, run in the state that trace `at` reaches. */
    twostate predicate Ran(at: seq<Step>, step: Step)
      reads this
    {
      && Valid() && old(trace) <= at && trace == at + [step]
      && At(Reached(stock, at), self) == At(old(s), self)
      && (old(others) == [] ==> at == old(trace) && Quiet())
    }

    /** Nobody else ran or will run, and no lock of anybody else has come or gone. */
    twostate predicate Quiet()
      reads this
    {
      others == [] && SameLocks(old(s), s, self)
    }

    method DoReadForPayment() returns (mid: State, ghost at: seq<Step>)
      requires Valid()
      modifies this
      ensures Ran(at, SReadForPayment(self)) && mid == Reached(stock, at) && s == ReadForPayment(mid, self)
    {
      mid, at := Statement(SReadForPayment(self));
    }

    method DoCasPaid() returns (mid: State, ghost at: seq<Step>)
      requires Valid()
      modifies this
      ensures Ran(at, SCasPaid(self)) && mid == Reached(stock, at) && s == CasPaid(mid, self)
    {
      mid, at := Statement(SCasPaid(self));
    }

    method DoCommitPaid() returns (mid: State, ghost at: seq<Step>)
      requires Valid()
      modifies this
      ensures Ran(at, SCommitPaid(self)) && mid == Reached(stock, at) && s == CommitPaid(mid, self)
    {
      mid, at := Statement(SCommitPaid(self));
    }

    method DoTakeAdvisoryLock() returns (mid: State, ghost at: seq<Step>)
      requires Valid()
      modifies this
      ensures Ran(at, STakeAdvisoryLock(self)) && mid == Reached(stock, at) && s == TakeAdvisoryLock(mid, self)
    {
      mid, at := Statement(STakeAdvisoryLock(self));
    }

    method DoRereadRow() returns (mid: State, ghost at: seq<Step>)
      requires Valid()
      modifies this
      ensures Ran(at, SRereadRow(self)) && mid == Reached(stock, at) && s == RereadRow(mid, self)
    {
      mid, at := Statement(SRereadRow(self));
    }

    /** `findFirst` for a SUCCESS payment of the order, in the state the others left. */
    method DoReadSibling(o: nat) returns (pick: nat, mid: State, ghost at: seq<Step>)
      requires Valid()
      modifies this
      ensures Ran(at, SReadSibling(self, pick)) && mid == Reached(stock, at) && s == ReadSibling(mid, self, pick)
      ensures NoSuccess(mid.db, o) || (Settled(mid.db, pick) && mid.db.payments[pick].order == o)
    {
      Await();
      mid, at := s, trace;
      var sibling := SuccessOf(s.db.payments, o);
      pick := if sibling.Some? then sibling.value else 0;
      Now(SReadSibling(self, pick));
    }

    method DoCasSuccess() returns (mid: State, ghost at: seq<Step>)
      requires Valid()
      modifies this
      ensures Ran(at, SCasSuccess(self)) && mid == Reached(stock, at) && s == CasSuccess(mid, self)
    {
      mid, at := Statement(SCasSuccess(self));
    }

    method DoReadBack() returns (mid: State, ghost at: seq<Step>)
      requires Valid()
      modifies this
      ensures Ran(at, SReadBack(self)) && mid == Reached(stock, at) && s == ReadBack(mid, self)
    {
      mid, at := Statement(SReadBack(self));
    }

    method DoMarkEvent() returns (mid: State, ghost at: seq<Step>)
      requires Valid()
      modifies this
      ensures Ran(at, SMarkEvent(self)) && mid == Reached(stock, at) && s == MarkEvent(mid, self)
    {
      mid, at := Statement(SMarkEvent(self));
    }

    method DoCommitClaim() returns (mid: State, ghost at: seq<Step>)
      requires Valid()
      modifies this
      ensures Ran(at, SCommitClaim(self)) && mid == Reached(stock, at) && s == CommitClaim(mid, self)
    {
      mid, at := Statement(SCommitClaim(self));
    }

    method DoReceive(d: Delivery, reply: Option<Answer>) returns (mid: State, ghost at: seq<Step>)
      requires Valid()
      modifies this
      ensures Ran(at, SReceive(self, d, reply)) && mid == Reached(stock, at) && s == Receive(mid, self, d, reply)
    {
      mid, at := Statement(SReceive(self, d, reply));
    }

    method DoRecordEvent() returns (mid: State, ghost at: seq<Step>)
      requires Valid()
      modifies this
      ensures Ran(at, SRecordEvent(self)) && mid == Reached(stock, at) && s == RecordEvent(mid, self)
    {
      mid, at := Statement(SRecordEvent(self));
    }

    method DoInsertEvent() returns (mid: State, ghost at: seq<Step>)
      requires Valid()
      modifies this
      ensures Ran(at, SInsertEvent(self)) && mid == Reached(stock, at) && s == InsertEvent(mid, self)
    {
      mid, at := Statement(SInsertEvent(self));
    }

    method DoRecover() returns (mid: State, ghost at: seq<Step>)
      requires Valid()
      modifies this
      ensures Ran(at, SRecover(self)) && mid == Reached(stock, at) && s == Recover(mid, self)
    {
      mid, at := Statement(SRecover(self));
    }

    method DoCheckStatus(p: nat, answer: Answer, transactionId: Option<TransactionId>)
      requires Valid()
      modifies this
      ensures Ran(old(trace), SCheckStatus(self, p, answer, transactionId)) && others == old(others)
      ensures s == CheckStatus(old(s), self, p, answer, transactionId)
    {
      Now(SCheckStatus(self, p, answer, transactionId));
    }

    method DoCasFailure() returns (mid: State, ghost at: seq<Step>)
      requires Valid()
      modifies this
      ensures Ran(at, SCasFailure(self)) && mid == Reached(stock, at) && s == CasFailure(mid, self)
    {
      mid, at := Statement(SCasFailure(self));
    }

    method DoCommitFailure() returns (mid: State, ghost at: seq<Step>)
      requires Valid()
      modifies this
      ensures Ran(at, SCommitFailure(self)) && mid == Reached(stock, at) && s == CommitFailure(mid, self)
    {
      mid, at := Statement(SCommitFailure(self));
    }

    method DoReadForCancel(o: nat) returns (mid: State, ghost at: seq<Step>)
      requires Valid()
      modifies this
      ensures Ran(at, SReadForCancel(self, o)) && mid == Reached(stock, at) && s == ReadForCancel(mid, self, o)
    {
      mid, at := Statement(SReadForCancel(self, o));
    }

    method DoCasCancelled() returns (mid: State, ghost at: seq<Step>)
      requires Valid()
      modifies this
      ensures Ran(at, SCasCancelled(self)) && mid == Reached(stock, at) && s == CasCancelled(mid, self)
    {
      mid, at := Statement(SCasCancelled(self));
    }

    method DoRestoreItem() returns (mid: State, ghost at: seq<Step>)
      requires Valid()
      modifies this
      ensures Ran(at, SRestoreItem(self)) && mid == Reached(stock, at) && s == RestoreItem(mid, self)
    {
      mid, at := Statement(SRestoreItem(self));
    }

    method DoCommitCancel() returns (mid: State, ghost at: seq<Step>)
      requires Valid()
      modifies this
      ensures Ran(at, SCommitCancel(self)) && mid == Reached(stock, at) && s == CommitCancel(mid, self)
    {
      mid, at := Statement(SCommitCancel(self));
    }

    method DoCrash() returns (mid: State, ghost at: seq<Step>)
      requires Valid()
      modifies this
      ensures Ran(at, SCrash(self)) && mid == Reached(stock, at) && s == Crash(mid, self)
    {
      mid, at := Statement(SCrash(self));
    }

    // ---------- markOrderPaidForPayment ----------

    /** Read and validate: None to go on, or the outcome of a refused or repeated transition. */
    method ReadOrder(p: nat) returns (refused: Option<OrderOutcome>)
      requires Valid() && At(s, self) == Settling(p)
      modifies this
      ensures Valid() && old(trace) <= trace && Forward(old(s).db, s.db, p)
      ensures At(s, self) == if refused.None? then PayRead(p) else Idle
      ensures refused.Some? ==> refused.value == Classify(s.db, p) && !WaitingFor(s.db, p)
      ensures refused.None? ==> Pays(s.db, p, s.db.payments[p].order)
      ensures old(others) == [] ==> Quiet() && s.db == old(s).db && (refused.None? <==> WaitingFor(s.db, p))
    {
      hide Run;
      MyPlaceIsSound(stock, trace, self);
      var mid, at := DoReadForPayment();
      LongerTraceIsForward(stock, old(trace), at, p);
      refused := if At(s, self).Idle? then Some(Classify(s.db, p)) else None;
    }

    /** The conditional update: Some(PAID written), or Some(nothing matched), or None when the row stayed locked. */
    method ClaimPaid(p: nat) returns (matched: Option<bool>)
      requires Valid() && At(s, self) == PayRead(p)
      modifies this
      ensures Valid() && old(trace) <= trace && Forward(old(s).db, s.db, p)
      ensures At(s, self) == if matched.None? then PayRead(p) else if matched.value then PayClaimed(p) else Idle
      ensures matched.Some? && !matched.value ==> s.db.orders[s.db.payments[p].order].status != O.PENDING
      ensures old(others) == [] ==> Quiet() && s.db == old(s).db
      ensures old(others) == [] && Free(old(s), OrderRow(s.db.payments[p].order), self) && WaitingFor(s.db, p)
              ==> matched.Some? && matched.value
    {
      hide Run;
      MyPlaceIsSound(stock, trace, self);
      var mid, at := DoCasPaid();
      LongerTraceIsForward(stock, old(trace), at, p);
      var pc := At(s, self);
      matched := if pc.PayClaimed? then Some(true) else if pc.PayRead? then None else Some(false);
    }

    method CommitPaidOrder(p: nat)
      requires Valid() && At(s, self) == PayClaimed(p)
      modifies this
      ensures Valid() && old(trace) <= trace && Forward(old(s).db, s.db, p) && At(s, self) == Idle
      ensures s.db.orders[s.db.payments[p].order].status == O.PAID
      ensures old(others) == [] ==> Quiet() && s.db == PaidBy(old(s).db, p)
    {
      hide Run;
      MyPlaceIsSound(stock, trace, self);
      var mid, at := DoCommitPaid();
      LongerTraceIsForward(stock, old(trace), at, p);
      LongerTraceIsForward(stock, at, trace, p);
    }

    /** Time out or throw: whatever was open is rolled back. */
    method RollBack(p: nat)
      requires Valid() && Settled(s.db, p)
      modifies this
      ensures Valid() && old(trace) <= trace && Forward(old(s).db, s.db, p) && At(s, self) == Idle
      ensures old(others) == [] ==> Quiet() && s.db == old(s).db
    {
      hide Run;
      var mid, at := DoCrash();
      LongerTraceIsForward(stock, old(trace), at, p);
    }

    /**
     Step two of settlement. Unless it timed out on a lock, an order whose total the payment matches
     is no longer waiting for money afterwards; undisturbed, a waiting one is PAID and nothing else moved.
     */
    method MarkOrderPaidForPayment(p: nat) returns (outcome: OrderOutcome)
      requires Valid() && At(s, self) == Settling(p)
      modifies this
      ensures Valid() && old(trace) <= trace && Forward(old(s).db, s.db, p) && At(s, self) == Idle
      ensures !outcome.OrderBusy? ==> !WaitingFor(s.db, p)
      ensures outcome.NowPaid? || outcome.AlreadyPaid? ==> O.Collected(s.db.orders[s.db.payments[p].order].status)
      ensures outcome.AnomalyCancelled? ==> s.db.orders[s.db.payments[p].order].status == O.CANCELLED
      ensures outcome.AnomalyAmount? ==> !Pays(s.db, p, s.db.payments[p].order)
      ensures old(others) == [] ==> Quiet()
      ensures old(others) == [] && Free(old(s), OrderRow(s.db.payments[p].order), self)
              ==> s.db == HealedBy(old(s).db, p) && outcome == HealingOutcome(old(s).db, p)
    {
      hide Run;
      var refused := ReadOrder(p);
      if refused.Some? {
        return refused.value;
      }
      outcome := MoveToPaid(p);
    }

    method MoveToPaid(p: nat) returns (outcome: OrderOutcome)
      requires Valid() && At(s, self) == PayRead(p)
      modifies this
      ensures Valid() && old(trace) <= trace && Forward(old(s).db, s.db, p) && At(s, self) == Idle
      ensures outcome.NowPaid? || outcome.AnomalyTransition? || outcome.OrderBusy?
      ensures !outcome.OrderBusy? ==> !WaitingFor(s.db, p)
      ensures outcome.NowPaid? ==> O.Collected(s.db.orders[s.db.payments[p].order].status)
      ensures old(others) == [] ==> Quiet()
      ensures old(others) == [] && Free(old(s), OrderRow(s.db.payments[p].order), self) && WaitingFor(old(s).db, p)
              ==> s.db == PaidBy(old(s).db, p) && outcome == NowPaid
    {
      hide Run;
      var matched := ClaimPaid(p);
      if matched.Some? && matched.value {
        CommitPaidOrder(p);
        return NowPaid;
      }
      if matched.None? {
        MyPlaceIsSound(stock, trace, self);
        RollBack(p);
        return OrderBusy;
      }
      return AnomalyTransition;
    }

    // ---------- claimPaymentSuccess ----------

    /**
     The claim inside its open transaction. Every answer but `Claimed` is a fact about committed rows;
     `Claimed` means the success is written, its row and index entries locked, and no sibling can settle before it
     commits. A unique violation, which another payment's entry proves, and a lock wait that timed out have rolled the
     transaction back. Undisturbed and with its locks free, it claims exactly an open row whose order has no success
     and whose transaction has settled no other payment.
     */
    method ClaimPaymentSuccess(job: Job) returns (result: ClaimResult)
      requires Valid() && (At(s, self) == ClaimRecorded(job) || (At(s, self) == ClaimBegun(job) && job.event.None?))
      modifies this
      ensures Valid() && old(trace) <= trace && At(s, self) == PlaceAfter(job, result)
      ensures result.Decided? ==> DecisionOk(s, self, job, result.answer)
      ensures result.UniqueViolation? ==> Clashes(s.db, job)
      ensures old(others) == [] ==> Quiet() && s.db == old(s).db
      ensures old(others) == [] && Free(old(s), AdvisoryKey(old(s), job), self) && RowFreeFor(old(s), self, job.payment)
              && KeysFreeFor(old(s), self, job)
              ==> result == VerdictOn(s.db, job)
    {
      hide Run;
      MyPlaceIsSound(stock, trace, self);
      var mid, at := DoTakeAdvisoryLock();
      if !At(s, self).ClaimLocked? {
        Abandon();
        return LockTimeout;
      }
      result := DecideClaim(job);
    }

    /** Time out: whatever was open is rolled back. */
    method Abandon()
      requires Valid()
      modifies this
      ensures Valid() && old(trace) <= trace && At(s, self) == Idle
      ensures old(others) == [] ==> Quiet() && s.db == old(s).db
    {
      hide Run;
      var mid, at := DoCrash();
    }

    /** Under the lock: re-read the row, look for a settled sibling, update conditionally, read back. */
    method DecideClaim(job: Job) returns (result: ClaimResult)
      requires Valid() && At(s, self) == ClaimLocked(job)
      modifies this
      ensures Valid() && old(trace) <= trace && At(s, self) == PlaceAfter(job, result)
      ensures result.Decided? ==> DecisionOk(s, self, job, result.answer)
      ensures result.UniqueViolation? ==> Clashes(s.db, job)
      ensures old(others) == [] ==> Quiet() && s.db == old(s).db
      ensures old(others) == [] && RowFreeFor(old(s), self, job.payment) && KeysFreeFor(old(s), self, job) ==>
                result == VerdictOn(s.db, job)
    {
      hide Run, Refuses;
      MyPlaceIsSound(stock, trace, self);
      var mid, at := DoRereadRow();
      if At(s, self).ClaimDecided? {
        MyPlaceIsSound(stock, trace, self);
        return Decided(At(s, self).answer);
      }
      result := LookForSibling(job);
    }

    method LookForSibling(job: Job) returns (result: ClaimResult)
      requires Valid() && At(s, self) == ClaimChecked(job)
      modifies this
      ensures Valid() && old(trace) <= trace && At(s, self) == PlaceAfter(job, result)
      ensures result.Decided? ==> DecisionOk(s, self, job, result.answer)
      ensures result.UniqueViolation? ==> Clashes(s.db, job)
      ensures old(others) == [] ==> Quiet() && s.db == old(s).db && job.payment < |s.db.payments|
      ensures old(others) == [] && P.Claimable(s.db.payments[job.payment].status)
              && RowFreeFor(old(s), self, job.payment) && KeysFreeFor(old(s), self, job)
              ==> result == VerdictOn(s.db, job)
    {
      hide Run, Refuses, Clashes;
      MyPlaceIsSound(stock, trace, self);
      var pick, mid, at := DoReadSibling(job.row.order);
      MyPlaceIsSound(stock, at, self);
      if At(s, self).ClaimDecided? {
        MyPlaceIsSound(stock, trace, self);
        return Decided(At(s, self).answer);
      }
      result := UpdateClaim(job);
    }

    /** The conditional update and the read-back; a row or an index entry that stays locked times out. */
    method UpdateClaim(job: Job) returns (result: ClaimResult)
      requires Valid() && At(s, self) == ClaimClear(job)
      modifies this
      ensures Valid() && old(trace) <= trace && At(s, self) == PlaceAfter(job, result)
      ensures result.Decided? ==> DecisionOk(s, self, job, result.answer)
      ensures result.UniqueViolation? ==> Clashes(s.db, job)
      ensures old(others) == [] ==> Quiet() && s.db == old(s).db
      ensures old(others) == [] && Winnable(s.db, job.payment)
              && RowFreeFor(old(s), self, job.payment) && KeysFreeFor(old(s), self, job)
              ==> result == if Clashes(s.db, job) then UniqueViolation else Decided(Claimed)
    {
      hide Run, Refuses, Clashes, SeenOk, DecisionOk;
      MyPlaceIsSound(stock, trace, self);
      var mid, at := DoCasSuccess();
      var pc := At(s, self);
      if pc.Recovering? || pc.Idle? {
        return UniqueViolation;
      }
      if pc.ClaimLost? {
        mid, at := DoReadBack();
      }
      result := ClaimAnswer(job);
    }

    method ClaimAnswer(job: Job) returns (result: ClaimResult)
      requires Valid() && (At(s, self).ClaimDecided? ==> At(s, self).job == job)
      modifies this
      ensures Valid() && old(trace) <= trace && !result.UniqueViolation? && At(s, self) == PlaceAfter(job, result)
      ensures result.Decided? ==> DecisionOk(s, self, job, result.answer)
      ensures old(others) == [] ==> Quiet() && s.db == old(s).db
      ensures At(old(s), self).ClaimDecided? ==> result == Decided(At(old(s), self).answer)
    {
      hide Run;
      if !At(s, self).ClaimDecided? {
        Abandon();
        return LockTimeout;
      }
      MyPlaceIsSound(stock, trace, self);
      return Decided(At(s, self).answer);
    }

    // ---------- recoveredDuplicate ----------

    /** A duplicate has no effect of its own, but it finishes a settlement that crashed between its two steps. */
    method RecoveredDuplicate(p: nat)
      requires Valid() && At(s, self) == Recovering(p)
      modifies this
      ensures Valid() && old(trace) <= trace && At(s, self) == Idle
      ensures old(others) == [] ==> Quiet() && p < |old(s).db.payments|
      ensures old(others) == [] && Free(old(s), OrderRow(old(s).db.payments[p].order), self)
              ==> s.db == RecoveredBy(old(s).db, p)
    {
      hide Run;
      MyPlaceIsSound(stock, trace, self);
      var mid, at := DoRecover();
      if At(s, self) == Settling(p) {
        var outcome := MarkOrderPaidForPayment(p);
      }
    }

    // ---------- handlePaystackWebhook ----------

    /** A standalone event row; the answer is false when its id was already taken. */
    method RecordRefusal(e: EventId, entry: EventRow, recover: Option<nat>) returns (recorded: Option<bool>)
      requires Valid() && At(s, self) == Recording(e, entry, recover)
      modifies this
      ensures Valid() && old(trace) <= trace && At(s, self) == Idle
      ensures recorded.Some? ==> e in s.db.events
      ensures recorded.Some? && recorded.value ==> s.db.events[e] == entry
      ensures old(others) == [] && e !in old(s).db.events && Free(old(s), EventKey(e), self)
              ==> recorded == Some(true) && s.db == old(s).db.(events := old(s).db.events[e := entry])
      ensures old(others) == [] && e in old(s).db.events
              ==> recorded == Some(false) && (recover.None? ==> s.db == old(s).db)
      ensures old(others) == [] && e in old(s).db.events && recover.Some?
              ==> recover.value < |old(s).db.payments|
                  && (Free(old(s), OrderRow(old(s).db.payments[recover.value].order), self)
                      ==> s.db == RecoveredBy(old(s).db, recover.value))
    {
      hide Run, Refuses;
      MyPlaceIsSound(stock, trace, self);
      var mid, at := DoRecordEvent();
      ghost var now := trace;
      if e in mid.db.events {
        if recover.Some? {
          RecoveredDuplicate(recover.value);
        }
        recorded := Some(false);
      } else if At(s, self).Idle? {
        recorded := Some(true);
      } else {
        Abandon();
        recorded := None;
      }
      LongerTraceIsLater(stock, now, trace);
    }

    /** Mark the event and commit it together with the claim. */
    method CommitDecision(job: Job, answer: SuccessAnswer)
      requires Valid() && At(s, self) == ClaimDecided(job, answer)
      modifies this
      ensures Valid() && old(trace) <= trace
      ensures At(s, self) == if Settles(job, answer) then Settling(job.payment) else Idle
      ensures job.payment < |s.db.payments| && Told(s.db, job, answer)
      ensures old(others) == [] ==> Quiet() && s.db == Committed(old(s).db, job, answer)
    {
      hide Run;
      if job.event.Some? {
        var marked, before := DoMarkEvent();
      }
      CommitClaimed(job, answer);
    }

    method CommitClaimed(job: Job, answer: SuccessAnswer)
      requires Valid()
      requires At(s, self) == ClaimMarked(job, answer) || (At(s, self) == ClaimDecided(job, answer) && job.event.None?)
      modifies this
      ensures Valid() && old(trace) <= trace
      ensures At(s, self) == if Settles(job, answer) then Settling(job.payment) else Idle
      ensures job.payment < |s.db.payments| && Told(s.db, job, answer)
      ensures old(others) == [] ==> Quiet() && s.db == Committed(old(s).db, job, answer)
    {
      hide Run, Refuses;
      MyPlaceIsSound(stock, trace, self);
      var mid, at := DoCommitClaim();
      MyPlaceIsSound(stock, at, self);
      CommittedReplyIsTrue(stock, trace);
    }

    /** Commit, then run step two if that is due. */
    method FinishClaim(job: Job, answer: SuccessAnswer) returns (order: Option<OrderOutcome>)
      requires Valid() && At(s, self) == ClaimDecided(job, answer)
      modifies this
      ensures Valid() && old(trace) <= trace && At(s, self) == Idle
      ensures order.Some? <==> Settles(job, answer)
      ensures job.payment < |s.db.payments| && Told(s.db, job, answer)
      ensures order.Some? ==> Settled(s.db, job.payment) && (!order.value.OrderBusy? ==> !WaitingFor(s.db, job.payment))
      ensures old(others) == [] ==> Quiet() && job.payment < |old(s).db.payments|
      ensures old(others) == [] && Free(old(s), OrderRow(old(s).db.payments[job.payment].order), self)
              ==> s.db == Finished(old(s).db, job, answer)
                  && (order.Some? ==> order.value == HealingOutcome(Committed(old(s).db, job, answer), job.payment))
    {
      hide Run;
      MyPlaceIsSound(stock, trace, self);
      CommitDecision(job, answer);
      ghost var committed := trace;
      if At(s, self).Settling? {
        var outcome := MarkOrderPaidForPayment(job.payment);
        order := Some(outcome);
      } else {
        order := None;
      }
      ToldStays(stock, committed, trace, job, answer);
    }

    /** Step 8 onwards: one transaction for event and claim, then the post-commit order step. */
    method SettleDelivery(job: Job) returns (outcome: WebhookOutcome)
      requires Valid() && At(s, self) == ClaimBegun(job) && job.event.Some?
      modifies this
      ensures Valid() && old(trace) <= trace && At(s, self) == Idle
      ensures !outcome.Duplicate? && !outcome.TimedOut? ==> Truthful(s.db, job, outcome)
      ensures outcome.Duplicate? ==> job.event.value in s.db.events || Clashes(s.db, job)
      ensures old(others) == [] ==> job.payment < |old(s).db.payments|
      ensures old(others) == [] && job.event.value in old(s).db.events
              && Free(old(s), OrderRow(old(s).db.payments[job.payment].order), self)
              ==> outcome == Duplicate && s.db == RecoveredBy(old(s).db, job.payment)
      ensures old(others) == [] && job.event.value !in old(s).db.events && Free(old(s), EventKey(job.event.value), self)
              && ClaimUnblocked(old(s), self, job)
              ==> s.db == ClaimedOn(old(s).db, job) && outcome == DeliveryAnswer(old(s).db, job)
    {
      hide Run, Refuses, ClaimedOn, DeliveryAnswer, Clashes, RecoveredBy, Truthful;
      var inserted := InsertEventRow(job);
      if inserted.None? {
        return TimedOut;
      }
      if inserted.value {
        outcome := ClaimForDelivery(job);
      } else {
        ghost var taken := trace;
        RecoveredDuplicate(job.payment);
        LongerTraceIsLater(stock, taken, trace);
        outcome := Duplicate;
      }
    }

    /** The event row inside the open transaction: Some(false) when its id is taken, None when its key stayed locked. */
    method InsertEventRow(job: Job) returns (inserted: Option<bool>)
      requires Valid() && At(s, self) == ClaimBegun(job) && job.event.Some?
      modifies this
      ensures Valid() && old(trace) <= trace && job.payment < |s.db.payments|
      ensures At(s, self) == if inserted.None? then Idle
                             else if inserted.value then ClaimRecorded(job) else Recovering(job.payment)
      ensures inserted == Some(false) ==> job.event.value in s.db.events
      ensures old(others) == [] ==>
                && Quiet() && s.db == old(s).db
                && (inserted == Some(false) <==> job.event.value in s.db.events)
                && (Free(old(s), EventKey(job.event.value), self) ==> inserted.Some?)
    {
      hide Run, Refuses;
      MyPlaceIsSound(stock, trace, self);
      var mid, at := DoInsertEvent();
      MyPlaceIsSound(stock, at, self);
      if At(s, self).ClaimBegun? {
        Abandon();
        MyPlaceIsSound(stock, trace, self);
        LongerTraceIsLater(stock, at, trace);
        return None;
      }
      inserted := Some(At(s, self).ClaimRecorded?);
    }

    method ClaimForDelivery(job: Job) returns (outcome: WebhookOutcome)
      requires Valid() && At(s, self) == ClaimRecorded(job) && job.event.Some?
      modifies this
      ensures Valid() && old(trace) <= trace && At(s, self) == Idle
      ensures !outcome.Duplicate? && !outcome.TimedOut? ==> Truthful(s.db, job, outcome)
      ensures outcome.Duplicate? ==> Clashes(s.db, job)
      ensures old(others) == [] ==> job.payment < |old(s).db.payments|
      ensures old(others) == [] && ClaimUnblocked(old(s), self, job)
              ==> s.db == ClaimedOn(old(s).db, job) && outcome == DeliveryAnswer(old(s).db, job)
    {
      hide Run, Refuses, Finished, HealingOutcome, Committed, Clashes;
      MyPlaceIsSound(stock, trace, self);
      var result := ClaimPaymentSuccess(job);
      match result
      case LockTimeout => outcome := TimedOut;
      case UniqueViolation =>
        ghost var violated := trace;
        RecoveredDuplicate(job.payment);
        ClashStays(stock, violated, trace, job);
        outcome := Duplicate;
      case Decided(answer) =>
        var order := FinishClaim(job, answer);
        outcome := WebhookAnswer(answer, if order.Some? then order.value else OrderBusy);
    }

    /**
     One signed delivery, end to end. Whatever it answers is what the event table says. Undisturbed and with its
     locks free it does exactly `DeliveredTo`. In particular it heals a settlement that crashed before its order
     step exactly when its event id was recorded before: a fresh delivery about it leaves the order waiting.
     */
    method HandlePaystackWebhook(d: Delivery, reply: Option<Answer>) returns (outcome: WebhookOutcome)
      requires Valid() && At(s, self) == Idle
      modifies this
      ensures Valid() && old(trace) <= trace && At(s, self) == Idle
      ensures EventTells(s.db, d, reply, outcome)
      ensures old(others) == [] && DeliveryUnblocked(old(s), self, d, reply)
              ==> s.db == DeliveredTo(old(s).db, d, reply) && outcome == DeliveryOutcome(old(s).db, d, reply)
      ensures
        var located := Locate(old(s).db.payments, d);
        old(others) == [] && DeliveryUnblocked(old(s), self, d, reply)
        && d.chargeSuccess && located.Found? && WaitingFor(old(s).db, located.payment)
        ==> var o := old(s).db.payments[located.payment].order;
            o < |s.db.orders| && (s.db.orders[o].status == O.PAID <==> d.event in old(s).db.events)
    {
      hide Run, Refuses, EventTells, DeliveryUnblocked, DeliveredTo, DeliveryOutcome;
      var located := Locate(s.db.payments, d);
      if d.chargeSuccess && located.Found? && WaitingFor(s.db, located.payment) {
        OnlyRecordedDeliveriesHeal(s.db, d, reply, located.payment);
      }
      ghost var unblocked := DeliveryUnblocked(s, self, d, reply);
      var refusal := Judge(d, reply);
      if old(others) == [] && unblocked {
        StillUnblocked(old(s), s, self, d, reply);
      }
      outcome := RecordOrSettle(d, reply, refusal);
    }

    /** After the judgement: record the refusal, or settle. */
    method RecordOrSettle(d: Delivery, reply: Option<Answer>, refusal: WebhookOutcome) returns (outcome: WebhookOutcome)
      requires Valid()
      requires At(s, self).Recording? || (At(s, self).ClaimBegun? && IsJobOf(At(s, self).job, d, reply))
      requires At(s, self).Recording? ==> At(s, self).event == d.event && RowTells(At(s, self).entry, refusal)
      modifies this
      ensures Valid() && old(trace) <= trace && At(s, self) == Idle
      ensures EventTells(s.db, d, reply, outcome)
      ensures
        old(others) == [] && DeliveryUnblocked(old(s), self, d, reply)
          && At(old(s), self) == Judged(old(s).db.payments, d, reply)
        && refusal == Refusal(old(s).db.payments, d, reply)
        ==> s.db == DeliveredTo(old(s).db, d, reply) && outcome == DeliveryOutcome(old(s).db, d, reply)
    {
      hide Run, Refuses;
      var pc := At(s, self);
      if pc.Recording? {
        var recorded := RecordRefusal(pc.event, pc.entry, pc.recover);
        outcome := if recorded.None? then TimedOut else if recorded.value then refusal else Duplicate;
      } else {
        outcome := SettleDelivery(pc.job);
        ClashMeansSpent(s.db, pc.job);
      }
    }

    /** Steps 1 to 7: find, compare, ask the provider. Then the claim may begin, or a refusal is to be recorded. */
    method Judge(d: Delivery, reply: Option<Answer>) returns (refusal: WebhookOutcome)
      requires Valid() && At(s, self) == Idle
      modifies this
      ensures Valid() && old(trace) <= trace
      ensures At(s, self).Recording? || (At(s, self).ClaimBegun? && IsJobOf(At(s, self).job, d, reply))
      ensures At(s, self).Recording? ==> At(s, self).event == d.event && RowTells(At(s, self).entry, refusal)
      ensures old(others) == [] ==>
                Quiet() && s.db == old(s).db && refusal == Refusal(s.db.payments, d, reply)
                && At(s, self) == Judged(s.db.payments, d, reply)
    {
      hide Run;
      var mid, at := DoReceive(d, reply);
      refusal := Refusal(mid.db.payments, d, reply);
    }

    // ---------- claimPaymentFailure ----------

    /**
     Some(claimed) with the row ended either way, or None when the row stayed locked. Undisturbed and with the
     row's lock free it wins exactly when the row is open and was open when its caller read it.
     */
    method ClaimPaymentFailure(p: nat, stale: P.PaymentStatus, to: P.PaymentStatus) returns (claimed: Option<bool>)
      requires Valid() && At(s, self) == FailBegun(p, stale, to)
      modifies this
      ensures Valid() && old(trace) <= trace && At(s, self) == Idle
      ensures claimed.Some? ==> p < |s.db.payments| && P.Terminal(s.db.payments[p].status)
      ensures claimed.Some? && claimed.value ==> s.db.payments[p].status == to
      ensures old(others) == [] ==> p < |old(s).db.payments|
      ensures old(others) == [] && Free(old(s), PaymentRow(p), self)
              ==> var wins := P.Claimable(stale) && P.Claimable(old(s).db.payments[p].status);
                  claimed == Some(wins) && s.db == if wins then FailedBy(old(s).db, p, to) else old(s).db
    {
      hide Run;
      MyPlaceIsSound(stock, trace, self);
      var mid, at := DoCasFailure();
      if At(s, self).FailBegun? {
        Abandon();
        return None;
      }
      var won := CommitEnd(p, to);
      claimed := Some(won);
    }

    method CommitEnd(p: nat, to: P.PaymentStatus) returns (claimed: bool)
      requires Valid() && At(s, self).FailDecided? && At(s, self).p == p && At(s, self).to == to
      modifies this
      ensures Valid() && old(trace) <= trace && At(s, self) == Idle && claimed == At(old(s), self).claimed
      ensures p < |s.db.payments| && P.Terminal(s.db.payments[p].status)
      ensures claimed ==> s.db.payments[p].status == to
      ensures old(others) == [] ==> s.db == if claimed then FailedBy(old(s).db, p, to) else old(s).db
    {
      hide Run;
      MyPlaceIsSound(stock, trace, self);
      claimed := At(s, self).claimed;
      var mid, at := DoCommitFailure();
      MyPlaceIsSound(stock, at, self);
      CommittedReplyIsTrue(stock, trace);
    }

    // ---------- verifyPaystackPaymentStatus ----------

    /** Ask about each reference in turn until the provider knows one; only a rejection moves on to the next. */
    method AskProvider(refs: seq<Reference>, provider: Reference -> ProviderReply) returns (status: ProviderReply)
      ensures status == Asked(refs, provider)
      ensures status.Rejected? <==> forall i :: 0 <= i < |refs| ==> provider(refs[i]).Rejected?
      ensures !status.Rejected? ==> exists i ::
                && 0 <= i < |refs|
                && status == provider(refs[i])
                && forall k :: 0 <= k < i ==> provider(refs[k]).Rejected?
    {
      status := Rejected;
      var i := 0;
      while i < |refs|
        invariant 0 <= i <= |refs| && status.Rejected?
        invariant forall k :: 0 <= k < i ==> provider(refs[k]).Rejected?
        invariant Asked(refs, provider) == Asked(refs[i..], provider)
      {
        status := provider(refs[i]);
        if !status.Rejected? {
          return;
        }
        i := i + 1;
      }
    }

    /**
     One status check, end to end; undisturbed and with its locks free it does exactly `CheckedBy`. A SUCCESS
     payment is never asked about again, but its order step is re-run first: that alone closes the crash window.
     */
    method VerifyPaystackPaymentStatus(p: nat, provider: Reference -> ProviderReply) returns (outcome: StatusOutcome)
      requires Valid() && At(s, self) == Idle
      modifies this
      ensures Valid() && old(trace) <= trace && At(s, self) == Idle
      ensures StatusTells(s.db, p, outcome)
      ensures old(others) == [] && CheckUnblocked(old(s), self, p, provider)
              ==> s.db == CheckedBy(old(s).db, p, provider) && outcome == CheckOutcome(old(s).db, p, provider)
    {
      hide Run;
      Await();
      if p >= |s.db.payments| {
        return NotFound;
      }
      var row := s.db.payments[p];
      if !row.paystack {
        return ProviderRetired;
      }
      if row.status == P.SUCCESS {
        outcome := HealSettled(p);
        return;
      }
      if !P.Claimable(row.status) {
        P.ClaimableIsNotTerminal(row.status);
        return AlreadyTerminal;
      }
      var status := AskProvider(VerificationReferences(row), provider);
      match status
      case Failed => return Unavailable;
      case Rejected => return RejectedByProvider;
      case Answered(answer, id) => outcome := ActOnAnswer(p, answer, id);
    }

    /** The check of a SUCCESS payment: nothing but the order step. */
    method HealSettled(p: nat) returns (outcome: StatusOutcome)
      requires Valid() && At(s, self) == Idle && Settled(s.db, p) && s.db.payments[p].paystack
      modifies this
      ensures Valid() && old(trace) <= trace && At(s, self) == Idle
      ensures outcome.AlreadySettled? && StatusTells(s.db, p, outcome)
      ensures old(others) == [] && Free(old(s), OrderRow(old(s).db.payments[p].order), self)
              ==> s.db == HealedBy(old(s).db, p) && outcome == AlreadySettled(HealingOutcome(old(s).db, p))
    {
      hide Run;
      DoCheckStatus(p, Answer(ReportedOther, "", 0.0, ""), None);
      var healed := MarkOrderPaidForPayment(p);
      outcome := AlreadySettled(healed);
    }

    /** The provider answered about a claimable row: corroborate, then claim success or failure. */
    method ActOnAnswer(p: nat, answer: Answer, id: Option<TransactionId>) returns (outcome: StatusOutcome)
      requires Valid() && At(s, self) == Idle && p < |s.db.payments|
      requires s.db.payments[p].paystack && P.Claimable(s.db.payments[p].status)
      modifies this
      ensures Valid() && old(trace) <= trace && At(s, self) == Idle
      ensures StatusTells(s.db, p, outcome)
      ensures old(others) == [] && ActUnblocked(old(s), self, p, answer, id)
              ==> s.db == ActedOn(old(s).db, p, answer, id) && outcome == ActOutcome(old(s).db, p, answer, id)
    {
      hide Run, Refuses, ClaimedOn, CheckAnswer, Clashes;
      var verdict := JudgeStatus(s.db.payments[p], answer);
      DoCheckStatus(p, answer, id);
      match verdict
      case StillPending => outcome := StillWaiting;
      case ReportedFailure =>
        var claimed := ClaimPaymentFailure(p, At(s, self).stale, P.FAILED);
        outcome := if claimed.Some? then VerifiedFailed(claimed.value) else CheckTimedOut;
      case StatusAccepted => outcome := ClaimForStatusCheck(At(s, self).job);
      case _ => outcome := Mismatch;
    }

    method ClaimForStatusCheck(job: Job) returns (outcome: StatusOutcome)
      requires Valid() && At(s, self) == ClaimBegun(job) && job.event.None?
      modifies this
      ensures Valid() && old(trace) <= trace && At(s, self) == Idle
      ensures StatusTells(s.db, job.payment, outcome)
      ensures old(others) == [] ==> job.payment < |old(s).db.payments|
      ensures old(others) == [] && ClaimUnblocked(old(s), self, job)
              ==> s.db == ClaimedOn(old(s).db, job) && outcome == CheckAnswer(old(s).db, job)
    {
      hide Run, Refuses, Finished, HealingOutcome, Committed, Clashes, SeenOk;
      MyPlaceIsSound(stock, trace, self);
      var result := ClaimPaymentSuccess(job);
      match result
      case LockTimeout => outcome := CheckTimedOut;
      case UniqueViolation => outcome := CheckThrew;
      case Decided(answer) =>
        var order := FinishClaim(job, answer);
        outcome := StatusAnswer(answer, if order.Some? then order.value else OrderBusy);
    }

    // ---------- cancelOrder ----------

    /** One turn of the restore loop; a listing that is gone rolls everything back. */
    method RestoreOne(o: nat, items: seq<Item>, done: nat) returns (listed: bool)
      requires Valid() && At(s, self) == Restoring(o, items, done) && done < |items|
      modifies this
      ensures Valid() && old(trace) <= trace && |s.db.stock| == |old(s).db.stock|
      ensures listed == (items[done].product < |s.db.stock|)
      ensures At(s, self) == if listed then Restoring(o, items, done + 1) else Idle
      ensures old(others) == [] ==> Quiet() && s.db == old(s).db && s.opening == old(s).opening
    {
      hide Run;
      var mid, at := DoRestoreItem();
      ListingsStay(stock, old(trace), at);
      listed := At(s, self).Restoring?;
    }

    /** The restore loop, inside the transaction: None when a listing is gone and everything is rolled back. */
    method RestoreStock(o: nat, items: seq<Item>) returns (restoredUnits: Option<nat>)
      requires Valid() && At(s, self) == Restoring(o, items, 0)
      modifies this
      ensures Valid() && old(trace) <= trace
      ensures At(s, self) == if restoredUnits.Some? then Restoring(o, items, |items|) else Idle
      ensures restoredUnits.Some? ==> restoredUnits.value == TotalUnits(items) && AllListed(items, s.db.stock)
      ensures restoredUnits.None? ==> !AllListed(items, s.db.stock)
      ensures old(others) == [] ==> Quiet() && s.db == old(s).db && s.opening == old(s).opening
    {
      var units, done := 0, 0;
      while done < |items|
        invariant 0 <= done <= |items|
        invariant Valid() && old(trace) <= trace && At(s, self) == Restoring(o, items, done)
        invariant units == TotalUnits(items[..done])
        invariant AllListed(items[..done], s.db.stock)
        invariant old(others) == [] ==> Quiet() && s.db == old(s).db && s.opening == old(s).opening
      {
        var listed := RestoreOne(o, items, done);
        if !listed {
          return None;
        }
        OneMoreItem(items, done, s.db.stock);
        units, done := units + items[done].quantity, done + 1;
      }
      assert items[..done] == items;
      restoredUnits := Some(units);
    }

    /**
     A buyer's cancellation. If it commits, the order is CANCELLED for good and its items are back in
     stock once, all of them; undisturbed, any other end leaves the database as it was.
     */
    method CancelOrder(o: nat) returns (outcome: CancelOutcome)
      requires Valid() && At(s, self) == Idle
      modifies this
      ensures Valid() && old(trace) <= trace && At(s, self) == Idle
      ensures outcome.Cancelled? ==> o < |s.db.orders| && s.db.orders[o].status == O.CANCELLED
                                     && outcome.restoredUnits == TotalUnits(s.db.orders[o].items)
      ensures outcome.AlreadyCancelled? ==> o < |s.db.orders| && s.db.orders[o].status == O.CANCELLED
      ensures old(others) == [] ==>
                s.db == (if outcome.Cancelled? && o < |old(s).db.orders|
                  && AllListed(old(s).db.orders[o].items, old(s).db.stock)
                         then CancelledBy(old(s).db, o) else old(s).db)
      ensures old(others) == [] && Free(old(s), OrderRow(o), self) ==>
                (outcome.Cancelled? <==>
                 && o < |old(s).db.orders|
                 && old(s).db.orders[o].status == O.PENDING
                 && AllListed(old(s).db.orders[o].items, old(s).db.stock))
    {
      var mid, at := DoReadForCancel(o);
      if At(s, self).Idle? {
        return if o >= |mid.db.orders| then OrderNotFound
               else if mid.db.orders[o].status == O.CANCELLED then AlreadyCancelled
               else InvalidTransition;
      }
      outcome := ClaimCancellation(o);
    }

    method ClaimCancellation(o: nat) returns (outcome: CancelOutcome)
      requires Valid() && At(s, self) == CancelRead(o)
      modifies this
      ensures Valid() && old(trace) <= trace && At(s, self) == Idle
      ensures outcome.Cancelled? ==> o < |s.db.orders| && s.db.orders[o].status == O.CANCELLED
                                     && outcome.restoredUnits == TotalUnits(s.db.orders[o].items)
      ensures outcome.AlreadyCancelled? ==> o < |s.db.orders| && s.db.orders[o].status == O.CANCELLED
      ensures old(others) == [] ==> o < |old(s).db.orders|
      ensures old(others) == [] ==>
                s.db == (if outcome.Cancelled? && AllListed(old(s).db.orders[o].items, old(s).db.stock)
                         then CancelledBy(old(s).db, o) else old(s).db)
      ensures old(others) == [] && Free(old(s), OrderRow(o), self) && old(s).db.orders[o].status == O.PENDING ==>
                (outcome.Cancelled? <==> AllListed(old(s).db.orders[o].items, old(s).db.stock))
    {
      hide Run;
      MyPlaceIsSound(stock, trace, self);
      var mid, at := DoCasCancelled();
      OrderStaysPut(stock, old(trace), at, o);
      if At(s, self).Idle? {
        return if s.db.orders[o].status == O.CANCELLED then AlreadyCancelled else InvalidTransition;
      }
      if At(s, self).CancelRead? {
        var gone, last := DoCrash();
        return CancelTimedOut;
      }
      outcome := RestoreAndCommit(o);
    }

    /** The rest of the transaction, with the order's row locked: the items go back, all of them or none. */
    method RestoreAndCommit(o: nat) returns (outcome: CancelOutcome)
      requires Valid() && At(s, self).Restoring? && At(s, self).o == o && At(s, self).done == 0
      modifies this
      ensures Valid() && old(trace) <= trace && At(s, self) == Idle
      ensures outcome.Cancelled? || outcome.InvalidTransition?
      ensures outcome.Cancelled? ==> o < |s.db.orders| && s.db.orders[o].status == O.CANCELLED
                                     && outcome.restoredUnits == TotalUnits(s.db.orders[o].items)
      ensures old(others) == [] ==>
                && o < |old(s).db.orders|
                && (outcome.Cancelled? <==> AllListed(old(s).db.orders[o].items, old(s).db.stock))
                && s.db == if outcome.Cancelled? then CancelledBy(old(s).db, o) else old(s).db
    {
      hide Run;
      MyPlaceIsSound(stock, trace, self);
      var units := RestoreStock(o, At(s, self).items);
      if units.None? {
        return InvalidTransition;
      }
      CommitCancellation(o);
      outcome := Cancelled(units.value);
    }

    method CommitCancellation(o: nat)
      requires Valid() && At(s, self).Restoring? && At(s, self).o == o
      requires At(s, self).done == |At(s, self).items| && AllListed(At(s, self).items, s.db.stock)
      modifies this
      ensures Valid() && old(trace) <= trace && At(s, self) == Idle
      ensures o < |s.db.orders| && s.db.orders[o].status == O.CANCELLED
              && s.db.orders[o].items == At(old(s), self).items
      ensures old(others) == [] ==>
                o < |old(s).db.orders| && AllListed(old(s).db.orders[o].items, old(s).db.stock)
                  && s.db == CancelledBy(old(s).db, o)
    {
      MyPlaceIsSound(stock, trace, self);
      var mid, at := DoCommitCancel();
      MyPlaceIsSound(stock, at, self);
      ListingsStay(stock, old(trace), at);
    }
  }

  // ---------- Answers and what they say ----------

  /** The webhook's answer is the one for what its claim has left behind. */
  ghost predicate Truthful(db: Database, job: Job, outcome: WebhookOutcome) {
    exists answer, order ::
      job.payment < |db.payments| && Told(db, job, answer) && outcome == WebhookAnswer(answer, order)
  }

  predicate IsJobOf(job: Job, d: Delivery, reply: Option<Answer>) {
    job.event == Some(d.event) && job.transactionId == d.transactionId && reply == Some(job.answer)
  }

  /** The webhook's answer agrees with the recorded event, or its transaction has settled some other payment. */
  ghost predicate EventTells(db: Database, d: Delivery, reply: Option<Answer>, outcome: WebhookOutcome) {
    match outcome
    case TimedOut => true
    case Duplicate =>
      || d.event in db.events
      || (reply.Some? && exists p: nat :: SpentElsewhere(db.payments, p, d.transactionId, reply.value.reference))
    case _ => d.event in db.events && RowTells(db.events[d.event], outcome)
  }

  predicate RowTells(row: EventRow, outcome: WebhookOutcome) {
    match outcome
    case Processed(_) => row.chargeSuccess && row.status == PROCESSED
    case Ignored(_) => row.chargeSuccess && row.status == IGNORED
    case RecordedOnly => !row.chargeSuccess && row.status == PROCESSED
    case Duplicate => false
    case TimedOut => false
    case _ => row.chargeSuccess && row.status == EVENT_FAILED
  }

  /** The status check's answer is true of the rows. */
  ghost predicate StatusTells(db: Database, p: nat, outcome: StatusOutcome) {
    match outcome
    case AlreadySettled(healed) => Settled(db, p) && StepTwoDone(db, p, healed)
    case VerifiedSuccess(_, order) => Settled(db, p) && StepTwoDone(db, p, order)
    case VerifiedFailed(_) => p < |db.payments| && P.Terminal(db.payments[p].status)
    case AlreadyTerminal => p < |db.payments| && P.Terminal(db.payments[p].status) && db.payments[p].status != P.SUCCESS
    case SupersededBySibling => exists q: nat :: SettledSibling(db, q, p)
    case CheckThrew => exists j: Job :: j.payment == p && Clashes(db, j)
    case _ => true
  }

  /** Unless the order step timed out, an order this payment covers waits no longer. */
  predicate StepTwoDone(db: Database, p: nat, outcome: OrderOutcome)
    requires p < |db.payments|
  {
    !outcome.OrderBusy? && Pays(db, p, db.payments[p].order) ==> db.orders[db.payments[p].order].status != O.PENDING
  }

  /**
   What one undisturbed recovery does: it pays an order that is waiting for exactly this money, touches
   no other row, never revives a cancelled order, and leaves nothing for a second recovery to do.
   */
  lemma RecoveryHealsOnce(stock: seq<int>, trace: seq<Step>, p: nat)
    requires Settled(Reached(stock, trace).db, p)
    ensures
      var db := Reached(stock, trace).db;
      var o := db.payments[p].order;
      && o < |db.orders|
      && var healed := HealedBy(db, p);
         && HealedBy(healed, p) == healed
         && (WaitingFor(db, p) <==> healed != db)
         && (WaitingFor(db, p) ==> healed.orders[o].status == O.PAID && O.IsPath(healed.orders[o].history))
         && (db.orders[o].status == O.CANCELLED ==> healed == db)
         && healed.payments == db.payments && healed.stock == db.stock && healed.events == db.events
         && (forall q :: 0 <= q < |db.orders| && q != o ==> healed.orders[q] == db.orders[q])
  {
    ReachedInv(stock, trace);
    var db := Reached(stock, trace).db;
    assert PaymentOk(db, db.payments[p]);
    assert OrderOk(db, db.payments[p].order);
  }
}
