/**
 The reference a winning claim leaves on its payment. The claim writes back the metadata its caller read
 before the transaction, so what the initialise route stored in between is lost, and nothing else is.
 */
module SettlementMetadata {
  import opened Options
  import opened SettlementGate
  import opened SettlementMachine
  import opened SettlementInvariant
  import opened SettlementSteps
  import opened SettlementCommits
  import opened SettlementTheorems
  import P = PaymentLifecycle
  import O = OrderLifecycle

  /** The step is an answer of the initialise route that payment p takes. */
  predicate Stores(s: State, step: Step, p: nat) {
    step.SInitialised? && step.payment == p && Apply(s, step) != s
  }

  /** The reference that the initialise route has stored last on payment p, or `first` if it stored none. */
  function Echoed(s: State, steps: seq<Step>, p: nat, first: Option<Reference>): Option<Reference>
    decreases |steps|
  {
    if steps == [] then first
    else
      var before, step := Run(s, steps[..|steps| - 1]), steps[|steps| - 1];
      if Stores(before, step, p) then step.echoed else Echoed(s, steps[..|steps| - 1], p, first)
  }

  /** As long as a payment stays open only the initialise route changes its stored reference. */
  lemma OnlyTheRouteStores(s: State, step: Step, p: nat)
    requires Inv(s) && p < |s.db.payments|
    requires p < |Apply(s, step).db.payments| && P.Claimable(Apply(s, step).db.payments[p].status)
    ensures Apply(s, step).db.payments[p].providerReference
            == if Stores(s, step, p) then step.echoed else s.db.payments[p].providerReference
  {
    if IsMove(step) {
      if Apply(s, step) != s {
        MoveIsSound(s, step);
      }
    } else if !Creates(step) {
      CommitsStoreNothing(s, step, p);
    }
  }

  lemma CommitsStoreNothing(s: State, step: Step, p: nat)
    requires Inv(s) && p < |s.db.payments| && !IsMove(step) && !Creates(step)
    requires p < |Apply(s, step).db.payments| && P.Claimable(Apply(s, step).db.payments[p].status)
    ensures Apply(s, step).db.payments[p].providerReference == s.db.payments[p].providerReference
  {
    ClientAt(s, step.c);
  }

  lemma {:induction false} OpenPaymentKeepsTheEcho(s: State, steps: seq<Step>, p: nat)
    requires Inv(s) && p < |s.db.payments|
    requires p < |Run(s, steps).db.payments| && P.Claimable(Run(s, steps).db.payments[p].status)
    ensures Run(s, steps).db.payments[p].providerReference == Echoed(s, steps, p, s.db.payments[p].providerReference)
    decreases |steps|
  {
    if steps != [] {
      var earlier, step := steps[..|steps| - 1], steps[|steps| - 1];
      RunKeepsInv(s, earlier);
      var before := Run(s, earlier);
      StepKeepsInv(before, step);
      P.ClaimableIsNotTerminal(Apply(before, step).db.payments[p].status);
      P.ClaimableIsNotTerminal(before.db.payments[p].status);
      OpenPaymentKeepsTheEcho(s, earlier, p);
      OnlyTheRouteStores(before, step, p);
    }
  }

  /** Client c is about to commit a won claim for this job. */
  predicate AboutToCommit(s: State, c: ClientId, j: Job) {
    At(s, c) == ClaimMarked(j, Claimed) || (At(s, c) == ClaimDecided(j, Claimed) && j.event.None?)
  }

  /**
   From the call's reading of the payment to its winning commit, whatever else runs: the claim leaves the
   reference it read, and so the stored one survives exactly when the last thing the initialise route stored
   meanwhile, if anything, is what the call had read.
   */
  lemma ReferenceSurvivesIff(stock: seq<int>, steps: seq<Step>, read: Step, c: ClientId, j: Job, more: seq<Step>)
    requires
      var s := Apply(Reached(stock, steps), read);
      && (read.SReceive? || read.SCheckStatus?) && read.c == c
      && At(Reached(stock, steps), c) == Idle && At(s, c) == ClaimBegun(j)
      && AboutToCommit(Run(s, more), c, j)
    ensures
      var s := Apply(Reached(stock, steps), read);
      var p, atCommit, after := j.payment, Run(s, more).db.payments, CommitClaim(Run(s, more), c).db.payments;
      && p < |s.db.payments| && p < |atCommit| && p < |after| && after[p].status == P.SUCCESS
      && j.row == s.db.payments[p] && after[p].providerReference == j.row.providerReference
      && (after[p].providerReference == atCommit[p].providerReference
          <==> Echoed(s, more, p, j.row.providerReference) == j.row.providerReference)
  {
    hide Run;
    hide Apply;
    ReachedInv(stock, steps);
    var s := Apply(Reached(stock, steps), read);
    StepKeepsInv(Reached(stock, steps), read);
    ReadingTakesTheRow(Reached(stock, steps), read, c, j);
    RunKeepsInv(s, more);
    ClientAt(Run(s, more), c);
    OpenPaymentKeepsTheEcho(s, more, j.payment);
  }

  lemma ReadingTakesTheRow(s: State, read: Step, c: ClientId, j: Job)
    requires (read.SReceive? || read.SCheckStatus?) && read.c == c && At(s, c) == Idle
    requires At(Apply(s, read), c) == ClaimBegun(j)
    ensures Apply(s, read).db == s.db && j.payment < |s.db.payments| && j.row == s.db.payments[j.payment]
  {
  }

  /** A status check reads a fresh payment, and the initialise route stores a reference right after. */
  function Overtaken(amount: int, currency: Currency, reference: Reference, echoed: Reference): seq<Step> {
    var read := SCheckStatus(0, 0, Answer(ReportedSuccess, reference, amount as real, currency), None);
    Fresh(amount, currency, reference) + [read] + [SInitialised(0, Some(echoed))]
  }

  function Fresh(amount: int, currency: Currency, reference: Reference): seq<Step> {
    [] + [SPlaceOrder(amount, [], 0)] + [SCreatePayment(0, true, amount, currency, reference)]
  }

  /** The rest of the check's claim, up to its commit. */
  function Claiming(steps: seq<Step>): seq<Step> {
    steps + [STakeAdvisoryLock(0)] + [SRereadRow(0)] + [SReadSibling(0, 0)] + [SCasSuccess(0)]
  }

  /** It does happen: on this schedule a stored reference is there just before the commit and gone after it. */
  lemma AStoredReferenceIsLost(amount: int, currency: Currency, reference: Reference, echoed: Reference)
    requires IsColumnInt(amount)
    ensures
      var steps := Claiming(Overtaken(amount, currency, reference, echoed));
      var before, after := Reached([], steps).db.payments, Reached([], steps + [SCommitClaim(0)]).db.payments;
      && |before| == 1 && before[0].providerReference == Some(echoed)
      && |after| == 1 && after[0].providerReference == None && after[0].status == P.SUCCESS
  {
    hide Run;
    hide Apply;
    var steps := Overtaken(amount, currency, reference, echoed);
    var s := Reached([], steps);
    ReadThenStored(amount, currency, reference, echoed);
    ClaimingRuns(steps);
    UndisturbedClaim(s, 0, At(s, 0).job, 0);
    CommitWritesBack(Reached([], Claiming(steps)), 0, At(s, 0).job);
  }

  lemma ClaimingRuns(steps: seq<Step>)
    ensures
      var s := Reached([], steps);
      && Reached([], Claiming(steps)) == CasSuccess(ReadSibling(RereadRow(TakeAdvisoryLock(s, 0), 0), 0, 0), 0)
      && Reached([], Claiming(steps) + [SCommitClaim(0)]) == CommitClaim(Reached([], Claiming(steps)), 0)
  {
    hide Run;
    hide TakeAdvisoryLock, RereadRow, ReadSibling, CasSuccess, CommitClaim;
    var locked := steps + [STakeAdvisoryLock(0)];
    var checked := locked + [SRereadRow(0)];
    var clear := checked + [SReadSibling(0, 0)];
    assert Reached([], locked) == TakeAdvisoryLock(Reached([], steps), 0) by {
      RunExtends(steps, STakeAdvisoryLock(0));
    }
    assert Reached([], checked) == RereadRow(Reached([], locked), 0) by {
      RunExtends(locked, SRereadRow(0));
    }
    assert Reached([], clear) == ReadSibling(Reached([], checked), 0, 0) by {
      RunExtends(checked, SReadSibling(0, 0));
    }
    assert Reached([], Claiming(steps)) == CasSuccess(Reached([], clear), 0) by {
      RunExtends(clear, SCasSuccess(0));
    }
    RunExtends(Claiming(steps), SCommitClaim(0));
  }

  lemma CommitWritesBack(s: State, c: ClientId, j: Job)
    requires AboutToCommit(s, c, j) && j.payment < |s.db.payments|
    ensures
      var after := CommitClaim(s, c).db.payments;
      && |after| == |s.db.payments|
      && after[j.payment].providerReference == j.row.providerReference && after[j.payment].status == P.SUCCESS
  {
  }

  /** With nobody else around, the four statements of a claim on an open payment without settled siblings win it. */
  lemma UndisturbedClaim(s: State, c: ClientId, j: Job, pick: nat)
    requires At(s, c) == ClaimBegun(j) && j.event.None? && s.owner == map[]
    requires j.payment < |s.db.payments| && P.Claimable(s.db.payments[j.payment].status) && NoSuccess(s.db, j.row.order)
    requires !Clashes(s.db, j)
    ensures
      var t := CasSuccess(ReadSibling(RereadRow(TakeAdvisoryLock(s, c), c), c, pick), c);
      && t.clients == s.clients[c := ClaimDecided(j, Claimed)] && t.db == s.db && t.opening == s.opening
      && forall r :: r in t.owner ==> t.owner[r] == c
  {
    var locked := TakeAdvisoryLock(s, c);
    assert At(locked, c) == ClaimLocked(j);
    var checked := RereadRow(locked, c);
    assert At(checked, c) == ClaimChecked(j);
    var clear := ReadSibling(checked, c, pick);
    assert At(clear, c) == ClaimClear(j);
    assert CasSuccess(clear, c).clients == s.clients[c := ClaimDecided(j, Claimed)];
  }

  lemma FreshRow(amount: int, currency: Currency, reference: Reference)
    requires IsColumnInt(amount)
    ensures
      var s := Reached([], Fresh(amount, currency, reference));
      && s.db.payments
         == [Payment(0, true, amount, currency, reference, None, None, None, P.PENDING, [P.PENDING], None)]
      && s.db.orders == [Order(O.PENDING, amount, [], 0, [O.PENDING])] && s.db.events == map[]
      && s.owner == map[] && s.clients == map[]
  {
    RunExtends([], SPlaceOrder(amount, [], 0));
    RunExtends([] + [SPlaceOrder(amount, [], 0)], SCreatePayment(0, true, amount, currency, reference));
  }

  lemma ReadThenStored(amount: int, currency: Currency, reference: Reference, echoed: Reference)
    requires IsColumnInt(amount)
    ensures
      var s := Reached([], Overtaken(amount, currency, reference, echoed));
      && |s.db.payments| == 1 && s.db.payments[0].providerReference == Some(echoed)
      && P.Claimable(s.db.payments[0].status) && NoSuccess(s.db, 0) && s.owner == map[]
      && At(s, 0).ClaimBegun?
      && var j := At(s, 0).job; j.payment == 0 && j.row.order == 0 && j.event.None? && j.row.providerReference == None
  {
    hide Run;
    var answer := Answer(ReportedSuccess, reference, amount as real, currency);
    var early := Fresh(amount, currency, reference);
    FreshRow(amount, currency, reference);
    StatusGateIsCorroboration(Reached([], early).db.payments[0], answer);
    RunExtends(early, SCheckStatus(0, 0, answer, None));
    RunExtends(early + [SCheckStatus(0, 0, answer, None)], SInitialised(0, Some(echoed)));
  }

  lemma RunExtends(steps: seq<Step>, step: Step)
    ensures Reached([], steps + [step]) == Apply(Reached([], steps), step)
  {
    assert (steps + [step])[..|steps|] == steps;
  }
}
