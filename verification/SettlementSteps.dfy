/** Every step of the settlement protocol keeps the invariant, and undoes nothing that was committed. */
module SettlementSteps {
  import opened Options
  import opened SettlementGate
  import opened SettlementMachine
  import opened SettlementInvariant
  import P = PaymentLifecycle
  import O = OrderLifecycle

  // ---------- What a step may do to a client it does not belong to ----------

  /** A fresh success is never one that d's advisory lock protects. */
  predicate SuccessesOutside(s: State, t: State, d: ClientId) {
    forall p :: 0 <= p < |t.db.payments| && t.db.payments[p].status == P.SUCCESS && !Settled(s.db, p) ==>
      && t.db.payments[p].order < |s.db.orders|
      && !Owns(s, AdvisoryLock(s.db.orders[t.db.payments[p].order].lockKey), d)
  }

  ghost predicate KeepsLocks(s: State, t: State, d: ClientId) {
    forall r :: Owns(s, r, d) ==> Owns(t, r, d)
  }

  predicate LockedRowsKept(s: State, t: State, d: ClientId) {
    && |s.db.payments| <= |t.db.payments|
    && |s.db.orders| <= |t.db.orders|
    && (forall p :: 0 <= p < |s.db.payments| && Owns(s, PaymentRow(p), d) ==>
       t.db.payments[p].status == s.db.payments[p].status)
    && (forall o :: 0 <= o < |s.db.orders| && Owns(s, OrderRow(o), d) ==>
       t.db.orders[o].status == s.db.orders[o].status)
    && (forall e :: e in t.db.events && e !in s.db.events ==> !Owns(s, EventKey(e), d))
  }

  predicate NewlyHolds(a: Database, b: Database, q: nat, r: Resource)
    requires q < |b.payments|
  {
    HoldsKey(b.payments[q], r) && !(q < |a.payments| && HoldsKey(a.payments[q], r))
  }

  /** A fresh entry in a unique index is never one that d has reserved. */
  ghost predicate KeysOutside(s: State, t: State, d: ClientId) {
    forall q, r :: 0 <= q < |t.db.payments| && NewlyHolds(s.db, t.db, q, r) ==> !Owns(s, r, d)
  }

  ghost predicate Undisturbed(s: State, t: State, d: ClientId) {
    && Evolves(s.db, t.db)
    && KeepsLocks(s, t, d)
    && LockedRowsKept(s, t, d)
    && SuccessesOutside(s, t, d)
    && KeysOutside(s, t, d)
  }

  lemma PaysStays(a: Database, b: Database, p: nat, o: nat)
    requires Evolves(a, b) && Pays(a, p, o)
    ensures Pays(b, p, o)
  {
    assert b.payments[p] == a.payments[p] && SameIdentity(a.payments[p], b.payments[p]);
  }

  lemma AnswerStays(a: Database, b: Database, p: nat, answer: SuccessAnswer)
    requires Evolves(a, b) && p < |a.payments| && AnswerTrue(a, p, answer)
    ensures AnswerTrue(b, p, answer)
  {
    if answer.Superseded? {
      var q: nat :| SettledSibling(a, q, p);
      assert SameIdentity(a.payments[p], b.payments[p]) && SameIdentity(a.payments[q], b.payments[q]);
      assert SettledSibling(b, q, p);
    }
  }

  lemma GateStays(s: State, t: State, d: ClientId, j: Job)
    requires Undisturbed(s, t, d) && InGate(s, d, j)
    ensures InGate(t, d, j)
    ensures NoSuccess(s.db, j.row.order) ==> NoSuccess(t.db, j.row.order)
    ensures s.db.payments[j.payment].status != P.SUCCESS ==> t.db.payments[j.payment].status != P.SUCCESS
  {
    var key := AdvisoryKey(s, j);
    JobStays(s.db, t.db, j);
    assert key == AdvisoryKey(t, j);
    assert Owns(s, key, d) && Owns(t, key, d);
    if NoSuccess(s.db, j.row.order) {
      forall p | 0 <= p < |t.db.payments|
        ensures !(t.db.payments[p].order == j.row.order && t.db.payments[p].status == P.SUCCESS)
      {
        if p < |s.db.payments| {
          assert SameIdentity(s.db.payments[p], t.db.payments[p]);
        }
      }
    }
  }

  /** A client that no step of its own moved is as sound after the step as before. */
  lemma ClientStays(s: State, t: State, d: ClientId, pc: Pc)
    requires ClientOk(s, d, pc) && Undisturbed(s, t, d)
    ensures ClientOk(t, d, pc)
  {
    if Undecided(pc) {
      ClaimantStays(s, t, d, pc);
    } else if pc.ClaimDecided? || pc.ClaimMarked? {
      DecisionStays(s, t, d, pc.job, pc.answer);
    } else {
      BystanderStays(s, t, d, pc);
    }
  }

  /** A client that is in no success claim. */
  lemma BystanderStays(s: State, t: State, d: ClientId, pc: Pc)
    requires !Undecided(pc) && !pc.ClaimDecided? && !pc.ClaimMarked? && ClientOk(s, d, pc) && Undisturbed(s, t, d)
    ensures ClientOk(t, d, pc)
  {
    match pc
    case Recording(e, entry, _) => SeenStays(s.db, t.db, e, entry.seen);
    case PayRead(p) => PaysStays(s.db, t.db, p, s.db.payments[p].order);
    case PayClaimed(p) => PaysStays(s.db, t.db, p, s.db.payments[p].order);
    case _ =>
  }

  /** The client is inside a success claim that has not decided yet. */
  predicate Undecided(pc: Pc) {
    pc.ClaimBegun? || pc.ClaimRecorded? || pc.ClaimLocked? || pc.ClaimChecked? || pc.ClaimClear? || pc.ClaimLost?
  }

  lemma ClaimantStays(s: State, t: State, d: ClientId, pc: Pc)
    requires Undecided(pc) && ClientOk(s, d, pc) && Undisturbed(s, t, d)
    ensures ClientOk(t, d, pc)
  {
    if pc.ClaimBegun? || pc.ClaimRecorded? {
      JobStays(s.db, t.db, pc.job);
    } else {
      GateStays(s, t, d, pc.job);
    }
  }

  /** What a client has reserved in the unique indexes nobody else enters. */
  lemma NoClashStays(s: State, t: State, d: ClientId, j: Job)
    requires !Clashes(s.db, j) && KeysOutside(s, t, d) && (forall r :: r in KeysOf(j) ==> Owns(s, r, d))
    ensures !Clashes(t.db, j)
  {
    forall r, q | r in KeysOf(j) && 0 <= q < |t.db.payments| && q != j.payment
      ensures !HoldsKey(t.db.payments[q], r)
    {
      assert Owns(s, r, d) && !TakenByAnother(s.db.payments, j.payment, r);
      assert !NewlyHolds(s.db, t.db, q, r);
    }
  }

  lemma DecisionStays(s: State, t: State, d: ClientId, j: Job, a: SuccessAnswer)
    requires DecisionOk(s, d, j, a) && Undisturbed(s, t, d)
    ensures DecisionOk(t, d, j, a)
  {
    GateStays(s, t, d, j);
    if a.Claimed? {
      NoClashStays(s, t, d, j);
    } else {
      AnswerStays(s.db, t.db, j.payment, a);
    }
  }

  /** Everybody but c. */
  ghost predicate OthersUndisturbed(s: State, t: State, c: ClientId) {
    && t.clients == s.clients[c := At(t, c)]
    && forall d :: d != c ==> Undisturbed(s, t, d)
  }

  lemma ClientsStay(s: State, t: State, c: ClientId)
    requires ClientsOk(s) && OthersUndisturbed(s, t, c) && ClientOk(t, c, At(t, c))
    ensures ClientsOk(t)
  {
    forall d | d in t.clients
      ensures ClientOk(t, d, t.clients[d])
    {
      if d != c {
        ClientStays(s, t, d, s.clients[d]);
      }
    }
  }

  // ---------- Steps that commit nothing ----------

  /** A step of c that leaves the database alone only has to answer for c's own position. */
  ghost predicate OnlyMoves(s: State, t: State, c: ClientId) {
    && t.db == s.db && t.opening == s.opening && t.replies == s.replies
    && t.clients == s.clients[c := At(t, c)]
    && forall d :: d != c ==> KeepsLocks(s, t, d)
  }

  lemma MoveKeepsInv(s: State, t: State, c: ClientId)
    requires Inv(s) && OnlyMoves(s, t, c) && ClientOk(t, c, At(t, c))
    ensures Inv(t) && Later(s, t)
  {
    assert RepliesTrue(t) by {
      forall i | 0 <= i < |t.replies| ensures ReplyTrue(t.db, t.replies[i]) {
        assert ReplyTrue(s.db, s.replies[i]);
      }
    }
    assert EndsAreWon(t) by {
      forall p | 0 <= p < |t.db.payments| && P.Terminal(t.db.payments[p].status)
        ensures exists i: nat :: WonAt(t, i, p)
      {
        var i: nat :| WonAt(s, i, p);
        assert WonAt(t, i, p);
      }
    }
    assert EventsOk(t) by {
      forall e | e in t.db.events ensures EventOk(t, e) { EventStays(s, t, e); }
    }
    ClientsStay(s, t, c);
  }

  lemma SeenStays(a: Database, b: Database, e: EventId, seen: Seen)
    requires SeenOk(a, e, seen) && PaymentsEvolve(a.payments, b.payments)
    ensures SeenOk(b, e, seen)
  {
  }

  /** A claim's job stays what it was about. */
  lemma JobStays(a: Database, b: Database, j: Job)
    requires JobOk(a, j) && Evolves(a, b)
    ensures JobOk(b, j)
  {
    assert SameIdentity(a.payments[j.payment], b.payments[j.payment]);
    if j.event.Some? {
      SeenStays(a, b, j.event.value, j.seen.value);
    }
  }

  lemma EventStays(s: State, t: State, e: EventId)
    requires e in s.db.events && EventOk(s, e) && e in t.db.events && t.db.events[e] == s.db.events[e]
    requires s.replies <= t.replies && PaymentsEvolve(s.db.payments, t.db.payments)
    ensures EventOk(t, e)
  {
    SeenStays(s.db, t.db, e, s.db.events[e].seen);
    if i: nat :| ReportedAt(s, i, e) {
      assert ReportedAt(t, i, e);
    }
  }

  /** Statements that read, decide, wait, take a lock or end without a write. */
  predicate IsMove(step: Step) {
    match step
    case SReceive(_, _, _) => true
    case SRecover(_) => true
    case SInsertEvent(_) => true
    case STakeAdvisoryLock(_) => true
    case SRereadRow(_) => true
    case SReadSibling(_, _) => true
    case SCasSuccess(_) => true
    case SReadBack(_) => true
    case SMarkEvent(_) => true
    case SCheckStatus(_, _, _, _) => true
    case SStartFailure(_, _, _) => true
    case SCasFailure(_) => true
    case SReadForPayment(_) => true
    case SCasPaid(_) => true
    case SReadForCancel(_, _) => true
    case SCasCancelled(_) => true
    case SRestoreItem(_) => true
    case SReadForFulfilment(_, _, _) => true
    case SCasFulfilled(_) => true
    case SCrash(_) => true
    case _ => false
  }

  lemma ClientAt(s: State, c: ClientId)
    requires Inv(s)
    ensures ClientOk(s, c, At(s, c))
  {
  }

  ghost predicate SoundMove(s: State, t: State, c: ClientId) {
    OnlyMoves(s, t, c) && ClientOk(t, c, At(t, c))
  }

  /** Moves of a webhook call or of a success claim. */
  predicate IsClaimMove(step: Step) {
    match step
    case SReceive(_, _, _) => true
    case SRecover(_) => true
    case SInsertEvent(_) => true
    case STakeAdvisoryLock(_) => true
    case SRereadRow(_) => true
    case SReadSibling(_, _) => true
    case SCasSuccess(_) => true
    case SReadBack(_) => true
    case SMarkEvent(_) => true
    case _ => false
  }

  lemma MoveIsSound(s: State, step: Step)
    requires Inv(s) && IsMove(step) && Apply(s, step) != s
    ensures SoundMove(s, Apply(s, step), step.c)
  {
    hide SoundMove, Inv;
    if IsClaimMove(step) {
      ClaimMoveIsSound(s, step);
    } else {
      OtherMoveIsSound(s, step);
    }
  }

  lemma ClaimMoveIsSound(s: State, step: Step)
    requires Inv(s) && IsClaimMove(step) && Apply(s, step) != s
    ensures SoundMove(s, Apply(s, step), step.c)
  {
    hide SoundMove, Inv;
    match step
    case SReceive(c, d, reply) => ReceiveIsSound(s, c, d, reply);
    case SRecover(c) => RecoverIsSound(s, c);
    case SInsertEvent(c) => InsertEventIsSound(s, c);
    case STakeAdvisoryLock(c) => TakeAdvisoryLockIsSound(s, c);
    case SRereadRow(c) => RereadRowIsSound(s, c);
    case SReadSibling(c, pick) => ReadSiblingIsSound(s, c, pick);
    case SCasSuccess(c) => CasSuccessIsSound(s, c);
    case SReadBack(c) => ReadBackIsSound(s, c);
    case SMarkEvent(c) => MarkEventIsSound(s, c);
  }

  lemma OtherMoveIsSound(s: State, step: Step)
    requires Inv(s) && IsMove(step) && !IsClaimMove(step) && Apply(s, step) != s
    ensures SoundMove(s, Apply(s, step), step.c)
  {
    hide SoundMove, Inv;
    match step
    case SCheckStatus(c, p, answer, txn) => CheckStatusIsSound(s, c, p, answer, txn);
    case SStartFailure(c, p, to) => StartFailureIsSound(s, c, p, to);
    case SCasFailure(c) => CasFailureIsSound(s, c);
    case SReadForPayment(c) => ReadForPaymentIsSound(s, c);
    case SCasPaid(c) => CasPaidIsSound(s, c);
    case SReadForCancel(c, o) => ReadForCancelIsSound(s, c, o);
    case SCasCancelled(c) => CasCancelledIsSound(s, c);
    case SRestoreItem(c) => RestoreItemIsSound(s, c);
    case SReadForFulfilment(c, o, step) => ReadForFulfilmentIsSound(s, c, o, step);
    case SCasFulfilled(c) => CasFulfilledIsSound(s, c);
    case SCrash(c) => CrashIsSound(s, c);
  }

  lemma InsertEventIsSound(s: State, c: ClientId)
    requires Inv(s) && InsertEvent(s, c) != s
    ensures SoundMove(s, InsertEvent(s, c), c)
  {
    hide Refuses;
    ClientAt(s, c);
  }

  lemma TakeAdvisoryLockIsSound(s: State, c: ClientId)
    requires Inv(s) && TakeAdvisoryLock(s, c) != s
    ensures SoundMove(s, TakeAdvisoryLock(s, c), c)
  {
    hide Refuses;
    ClientAt(s, c);
  }

  lemma RereadRowIsSound(s: State, c: ClientId)
    requires Inv(s) && RereadRow(s, c) != s
    ensures SoundMove(s, RereadRow(s, c), c)
  {
    hide Refuses;
    ClientAt(s, c);
    P.ClaimableIsNotTerminal(s.db.payments[At(s, c).job.payment].status);
  }

  lemma CasSuccessIsSound(s: State, c: ClientId)
    requires Inv(s) && CasSuccess(s, c) != s
    ensures SoundMove(s, CasSuccess(s, c), c)
  {
    hide Refuses, Clashes, SeenOk;
    ClientAt(s, c);
    P.ClaimableIsNotTerminal(s.db.payments[At(s, c).job.payment].status);
  }

  lemma ReadBackIsSound(s: State, c: ClientId)
    requires Inv(s) && ReadBack(s, c) != s
    ensures SoundMove(s, ReadBack(s, c), c)
  {
    hide Refuses;
    ClientAt(s, c);
    P.ClaimableIsNotTerminal(s.db.payments[At(s, c).job.payment].status);
  }

  lemma MarkEventIsSound(s: State, c: ClientId)
    requires Inv(s) && MarkEvent(s, c) != s
    ensures SoundMove(s, MarkEvent(s, c), c)
  {
    ClientAt(s, c);
  }

  lemma RecoverIsSound(s: State, c: ClientId)
    requires Inv(s) && Recover(s, c) != s
    ensures SoundMove(s, Recover(s, c), c)
  {
    ClientAt(s, c);
  }

  lemma StartFailureIsSound(s: State, c: ClientId, p: nat, to: P.PaymentStatus)
    requires Inv(s) && StartFailure(s, c, p, to) != s
    ensures SoundMove(s, StartFailure(s, c, p, to), c)
  {
    ClientAt(s, c);
  }

  lemma CasFailureIsSound(s: State, c: ClientId)
    requires Inv(s) && CasFailure(s, c) != s
    ensures SoundMove(s, CasFailure(s, c), c)
  {
    ClientAt(s, c);
    P.ClaimableIsNotTerminal(s.db.payments[At(s, c).p].status);
    P.ClaimableIsNotTerminal(At(s, c).stale);
  }

  lemma CrashIsSound(s: State, c: ClientId)
    requires Inv(s) && Crash(s, c) != s
    ensures SoundMove(s, Crash(s, c), c)
  {
    ClientAt(s, c);
  }

  lemma ReadForPaymentIsSound(s: State, c: ClientId)
    requires Inv(s) && ReadForPayment(s, c) != s
    ensures SoundMove(s, ReadForPayment(s, c), c)
  {
    ClientAt(s, c);
  }

  lemma CasPaidIsSound(s: State, c: ClientId)
    requires Inv(s) && CasPaid(s, c) != s
    ensures SoundMove(s, CasPaid(s, c), c)
  {
    ClientAt(s, c);
  }

  lemma ReadForCancelIsSound(s: State, c: ClientId, o: nat)
    requires Inv(s) && ReadForCancel(s, c, o) != s
    ensures SoundMove(s, ReadForCancel(s, c, o), c)
  {
    ClientAt(s, c);
  }

  lemma CasCancelledIsSound(s: State, c: ClientId)
    requires Inv(s) && CasCancelled(s, c) != s
    ensures SoundMove(s, CasCancelled(s, c), c)
  {
    ClientAt(s, c);
  }

  lemma ReadForFulfilmentIsSound(s: State, c: ClientId, o: nat, step: O.OrderStatus)
    requires Inv(s) && ReadForFulfilment(s, c, o, step) != s
    ensures SoundMove(s, ReadForFulfilment(s, c, o, step), c)
  {
    ClientAt(s, c);
  }

  lemma CasFulfilledIsSound(s: State, c: ClientId)
    requires Inv(s) && CasFulfilled(s, c) != s
    ensures SoundMove(s, CasFulfilled(s, c), c)
  {
    ClientAt(s, c);
  }

  lemma ReceiveIsSound(s: State, c: ClientId, d: Delivery, reply: Option<Answer>)
    requires Inv(s) && Receive(s, c, d, reply) != s
    ensures SoundMove(s, Receive(s, c, d, reply), c)
  {
    var accepted := AcceptedFor(s.db.payments, d, reply);
    if accepted.Some? {
      var p := accepted.value;
      assert PaymentOk(s.db, s.db.payments[p]);
      WebhookGateImpliesStatusGate(s.db.payments, d, p, reply.value);
      StatusGateIsCorroboration(s.db.payments[p], reply.value);
    }
  }

  lemma CheckStatusIsSound(s: State, c: ClientId, p: nat, answer: Answer, txn: Option<TransactionId>)
    requires Inv(s) && CheckStatus(s, c, p, answer, txn) != s
    ensures SoundMove(s, CheckStatus(s, c, p, answer, txn), c)
  {
    assert PaymentOk(s.db, s.db.payments[p]);
    StatusGateIsCorroboration(s.db.payments[p], answer);
  }

  lemma ReadSiblingIsSound(s: State, c: ClientId, pick: nat)
    requires Inv(s) && ReadSibling(s, c, pick) != s
    ensures SoundMove(s, ReadSibling(s, c, pick), c)
  {
    hide Refuses;
    ClientAt(s, c);
    var j := At(s, c).job;
    if pick < |s.db.payments| && s.db.payments[pick].order == j.row.order && s.db.payments[pick].status == P.SUCCESS {
      assert SettledSibling(s.db, pick, j.payment);
    }
  }

  lemma RestoreItemIsSound(s: State, c: ClientId)
    requires Inv(s) && RestoreItem(s, c) != s
    ensures SoundMove(s, RestoreItem(s, c), c)
  {
    ClientAt(s, c);
    var Restoring(o, items, done) := At(s, c);
    if items[done].product < |s.db.stock| {
      assert items[..done + 1] == items[..done] + [items[done]];
    }
  }
}
