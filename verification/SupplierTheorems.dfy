/** What the supplier services guarantee on every schedule. */
module SupplierTheorems {
  import opened Options
  import opened SupplierRules
  import opened SupplierTables
  import opened SupplierMachine
  import opened SupplierInvariant
  import R = ReturnRules

  // ---------- Every step keeps the invariant ----------

  lemma CreateTaskKeepsInv(s: State, c: ClientId, item: nat, position: nat, product: SupplierProduct)
    requires Inv(s)
    ensures Inv(CreateTask(s, c, item, position, product))
    ensures Evolves(s.t, CreateTask(s, c, item, position, product).t)
  {
    var after := CreateTask(s, c, item, position, product);
    if after != s {
      TaskAddedIsSound(s.t, item, position, product);
      OthersStaySound(s, after.t, c, At(after, c));
    }
  }

  lemma LogTaskKeepsInv(s: State, c: ClientId)
    requires Inv(s)
    ensures Inv(LogTask(s, c)) && Evolves(s.t, LogTask(s, c).t)
  {
    AtIsSound(s, c);
    var after := LogTask(s, c);
    if At(s, c).Logging? {
      var f := At(s, c).f;
      if !KeyUsed(s.t.events, PaymentKey(s.t.fulfilments[f].item)) {
        CreationLoggedIsSound(s.t, f);
      }
      OthersStaySound(s, after.t, c, Idle);
    }
  }

  lemma LoadMoveKeepsInv(s: State, c: ClientId, move: Move)
    requires Inv(s)
    ensures Inv(LoadMove(s, c, move)) && Evolves(s.t, LoadMove(s, c, move).t)
  {
    OthersStaySound(s, s.t, c, At(LoadMove(s, c, move), c));
  }

  lemma PrepareMoveKeepsInv(s: State, c: ClientId)
    requires Inv(s)
    ensures Inv(PrepareMove(s, c)) && Evolves(s.t, PrepareMove(s, c).t)
  {
    AtIsSound(s, c);
    OthersStaySound(s, s.t, c, At(PrepareMove(s, c), c));
  }

  lemma FinishMoveKeepsInv(s: State, c: ClientId, clash: bool)
    requires Inv(s)
    ensures Inv(FinishMove(s, c, clash)) && Evolves(s.t, FinishMove(s, c, clash).t)
  {
    AtIsSound(s, c);
    if At(s, c).Prepared? {
      var mine, row := At(s, c).move, At(s, c).row;
      var after := FinishMove(s, c, clash);
      if after.t != s.t {
        MoveIsSound(s.t, mine, row);
      }
      OthersStaySound(s, after.t, c, At(after, c));
    }
  }

  lemma LoadFilingKeepsInv(s: State, c: ClientId, filing: Filing)
    requires Inv(s)
    ensures Inv(LoadFiling(s, c, filing)) && Evolves(s.t, LoadFiling(s, c, filing).t)
  {
    OthersStaySound(s, s.t, c, At(LoadFiling(s, c, filing), c));
  }

  lemma FileReturnKeepsInv(s: State, c: ClientId, clash: bool)
    requires Inv(s)
    ensures Inv(FileReturn(s, c, clash)) && Evolves(s.t, FileReturn(s, c, clash).t)
  {
    AtIsSound(s, c);
    if At(s, c).Requesting? {
      var mine, row := At(s, c).filing, At(s, c).row;
      if !ReturnKeyUsed(s.t, FilingKey(mine)) && !HasReturn(s.t, mine.fulfilment) {
        FilingIsSound(s.t, mine, row);
      }
      var after := FileReturn(s, c, clash);
      OthersStaySound(s, after.t, c, At(after, c));
    }
  }

  lemma LoadDecisionKeepsInv(s: State, c: ClientId, decision: Decision)
    requires Inv(s)
    ensures Inv(LoadDecision(s, c, decision)) && Evolves(s.t, LoadDecision(s, c, decision).t)
  {
    OthersStaySound(s, s.t, c, At(LoadDecision(s, c, decision), c));
  }

  lemma DecideKeepsInv(s: State, c: ClientId, clash: bool)
    requires Inv(s)
    ensures Inv(Decide(s, c, clash)) && Evolves(s.t, Decide(s, c, clash).t)
  {
    AtIsSound(s, c);
    if At(s, c).Deciding? {
      var mine, row, seen := At(s, c).decision, At(s, c).request, At(s, c).refund;
      if Ruling(s.t, mine, row, seen, clash).None? {
        DecisionIsSound(s.t, mine, row, seen);
      }
      var after := Decide(s, c, clash);
      OthersStaySound(s, after.t, c, At(after, c));
    }
  }

  /** Tables that differ in added orders and in columns the invariant does not rest on. */
  predicate Unrelated(a: Tables, b: Tables) {
    && |a.orders| <= |b.orders| && a.items <= b.items && a.settled <= b.settled
    && (forall i :: |a.items| <= i < |b.items| ==> b.items[i].order < |b.orders|)
    && b.events == a.events && b.fulfilments == a.fulfilments && b.requests == a.requests
    && |b.refunds| == |a.refunds|
    && (forall o :: 0 <= o < |a.orders| ==> SameOrder(a.orders[o], b.orders[o]))
    && (forall o, q :: 0 <= o < q && |a.orders| <= q < |b.orders| ==> b.orders[o].number != b.orders[q].number)
    && (forall k :: 0 <= k < |a.refunds| ==> SameRefund(a.refunds[k], b.refunds[k]))
    && (forall f :: f in a.purchases ==> f in b.purchases && b.purchases[f].amount == a.purchases[f].amount)
  }

  lemma WorldIsUnrelated(t: Tables, step: Step)
    ensures Unrelated(t, WorldTables(t, step))
  {
  }

  lemma UnrelatedKeepsDataOk(a: Tables, b: Tables)
    requires DataOk(a) && Unrelated(a, b)
    ensures DataOk(b) && Evolves(a, b)
  {
    forall r | 0 <= r < |b.requests|
      ensures ReturnOk(b, r)
    {
      assert ReturnOk(a, r);
    }
    forall k | 0 <= k < |b.refunds|
      ensures RefundOk(b, k)
    {
      assert RefundOk(a, k);
      assert ReturnOk(a, a.refunds[k].request);
    }
    forall f | 0 <= f < |b.fulfilments|
      ensures Replays(b, f)
    {
      assert Replays(a, f);
    }
  }

  /** Whatever else goes on only adds orders, or changes columns the invariant does not rest on. */
  lemma WorldKeepsInv(s: State, step: Step)
    requires Inv(s) && !ByClient(step)
    ensures Inv(Apply(s, step)) && Evolves(s.t, Apply(s, step).t)
  {
    var b := WorldTables(s.t, step);
    WorldIsUnrelated(s.t, step);
    UnrelatedKeepsDataOk(s.t, b);
    EverybodyStaysSound(s, b);
  }

  lemma TaskStepKeepsInv(s: State, step: Step)
    requires Inv(s) && (step.SCreateTask? || step.SLogTask? || step.SStop?)
    ensures Inv(Apply(s, step)) && Evolves(s.t, Apply(s, step).t)
  {
    match step
    case SCreateTask(c, item, position, product) => CreateTaskKeepsInv(s, c, item, position, product);
    case SLogTask(c) => LogTaskKeepsInv(s, c);
    case SStop(c) => OthersStaySound(s, s.t, c, Idle);
  }

  lemma MoveStepKeepsInv(s: State, step: Step)
    requires Inv(s) && (step.SLoadMove? || step.SPrepareMove? || step.SFinishMove?)
    ensures Inv(Apply(s, step)) && Evolves(s.t, Apply(s, step).t)
  {
    match step
    case SLoadMove(c, move) => LoadMoveKeepsInv(s, c, move);
    case SPrepareMove(c) => PrepareMoveKeepsInv(s, c);
    case SFinishMove(c, clash) => FinishMoveKeepsInv(s, c, clash);
  }

  lemma FilingStepKeepsInv(s: State, step: Step)
    requires Inv(s) && (step.SLoadFiling? || step.SFileReturn?)
    ensures Inv(Apply(s, step)) && Evolves(s.t, Apply(s, step).t)
  {
    match step
    case SLoadFiling(c, filing) => LoadFilingKeepsInv(s, c, filing);
    case SFileReturn(c, clash) => FileReturnKeepsInv(s, c, clash);
  }

  lemma DecisionStepKeepsInv(s: State, step: Step)
    requires Inv(s) && (step.SLoadDecision? || step.SDecide?)
    ensures Inv(Apply(s, step)) && Evolves(s.t, Apply(s, step).t)
  {
    match step
    case SLoadDecision(c, decision) => LoadDecisionKeepsInv(s, c, decision);
    case SDecide(c, clash) => DecideKeepsInv(s, c, clash);
  }

  lemma StepKeepsInv(s: State, step: Step)
    requires Inv(s)
    ensures Inv(Apply(s, step)) && Evolves(s.t, Apply(s, step).t)
  {
    if step.SCreateTask? || step.SLogTask? || step.SStop? {
      TaskStepKeepsInv(s, step);
    } else if step.SLoadMove? || step.SPrepareMove? || step.SFinishMove? {
      MoveStepKeepsInv(s, step);
    } else if step.SLoadFiling? || step.SFileReturn? {
      FilingStepKeepsInv(s, step);
    } else if step.SLoadDecision? || step.SDecide? {
      DecisionStepKeepsInv(s, step);
    } else {
      WorldKeepsInv(s, step);
    }
  }

  lemma {:induction false} RunKeepsInv(s: State, steps: seq<Step>)
    requires Inv(s)
    ensures Inv(Run(s, steps)) && Evolves(s.t, Run(s, steps).t)
  {
    if steps != [] {
      RunKeepsInv(s, steps[..|steps| - 1]);
      StepKeepsInv(Run(s, steps[..|steps| - 1]), steps[|steps| - 1]);
      EvolvesTrans(s.t, Run(s, steps[..|steps| - 1]).t, Run(s, steps).t);
    }
  }

  function Reached(steps: seq<Step>): State {
    Run(Empty, steps)
  }

  lemma ReachedInv(steps: seq<Step>)
    ensures Inv(Reached(steps))
  {
    RunKeepsInv(Empty, steps);
  }

  lemma RunExtends(steps: seq<Step>, step: Step)
    ensures Reached(steps + [step]) == Apply(Reached(steps), step)
  {
    assert (steps + [step])[..|steps|] == steps;
  }

  // ---------- The log ----------

  /** In every reachable state the moves logged for a fulfilment are one path of the table, ending at its status. */
  lemma LogReplaysToTheStatus(steps: seq<Step>, f: nat)
    requires f < |Reached(steps).t.fulfilments|
    ensures IsPath(Reached(steps).t.events, f)
    ensures Replay(Reached(steps).t.events, f) == Reached(steps).t.fulfilments[f].status
  {
    ReachedInv(steps);
    assert Replays(Reached(steps).t, f);
  }

  predicate Finished(t: Tables, f: nat) {
    f < |t.fulfilments| && (t.fulfilments[f].status == DELIVERED || t.fulfilments[f].status == CANCELLED)
  }

  lemma {:induction false} FinishedStays(s: State, more: seq<Step>, f: nat)
    requires Inv(s) && Finished(s.t, f)
    ensures Finished(Run(s, more).t, f) && Run(s, more).t.fulfilments[f].status == s.t.fulfilments[f].status
  {
    if more != [] {
      var shorter := more[..|more| - 1];
      FinishedStays(s, shorter, f);
      RunKeepsInv(s, shorter);
      StatusFollowsTheTable(Run(s, shorter), more[|more| - 1], f);
    }
  }

  /** A delivered or cancelled fulfilment keeps its status on every continuation. */
  lemma TerminalForGood(steps: seq<Step>, more: seq<Step>, f: nat)
    requires Finished(Reached(steps).t, f)
    ensures Finished(Reached(steps + more).t, f)
    ensures Reached(steps + more).t.fulfilments[f].status == Reached(steps).t.fulfilments[f].status
  {
    ReachedInv(steps);
    RunSplits(Empty, steps, more);
    FinishedStays(Reached(steps), more, f);
  }

  /** Whatever the step, a status either stays or moves along the table. */
  lemma StatusFollowsTheTable(s: State, step: Step, f: nat)
    requires Inv(s) && f < |s.t.fulfilments|
    ensures f < |Apply(s, step).t.fulfilments|
    ensures
      var from, to := s.t.fulfilments[f].status, Apply(s, step).t.fulfilments[f].status;
      from == to || to in Transitions(from)
  {
    if step.SFinishMove? {
      AtIsSound(s, step.c);
    }
  }

  // ---------- What an answer says ----------

  /** No step that leaves its client with an idempotent answer or an error has written anything. */
  lemma RefusalsChangeNothing(s: State, step: Step)
    requires ByClient(step) && !step.SCreateTask? && !step.SLogTask?
    requires
      var pc := At(Apply(s, step), step.c);
      !(pc.AnsweredMove? && pc.moveAnswer.Moved?)
        && !(pc.AnsweredReturn? && (pc.returnAnswer.Filed? || pc.returnAnswer.Decided?))
    ensures Apply(s, step).t == s.t
  {
  }

  /** An event key is logged at most once, so a call with a used key never moves anything again. */
  lemma KeysAreUsedOnce(steps: seq<Step>, i: nat, j: nat)
    requires i < j < |Reached(steps).t.events|
    ensures Reached(steps).t.events[i].key != Reached(steps).t.events[j].key
  {
    ReachedInv(steps);
  }

  lemma {:induction false} UsedKeysStayUsed(steps: seq<Step>, more: seq<Step>, key: EventKey)
    requires KeyUsed(Reached(steps).t.events, key)
    ensures KeyUsed(Reached(steps + more).t.events, key)
  {
    ReachedInv(steps);
    RunSplits(Empty, steps, more);
    RunKeepsInv(Reached(steps), more);
    var i :| 0 <= i < |Reached(steps).t.events| && Reached(steps).t.events[i].key == key;
    assert Reached(steps + more).t.events[i].key == key;
  }

  lemma {:induction false} RunSplits(s: State, first: seq<Step>, rest: seq<Step>)
    ensures Run(s, first + rest) == Run(Run(s, first), rest)
    decreases |rest|
  {
    if rest == [] {
      assert first + rest == first;
    } else {
      RunSplits(s, first, rest[..|rest| - 1]);
      assert (first + rest)[..|first + rest| - 1] == first + rest[..|rest| - 1];
    }
  }

  // ---------- Refunds ----------

  function RefundedOf(refunds: seq<Refund>, order: nat): nat {
    if refunds == [] then 0
    else
      var last := refunds[|refunds| - 1];
      RefundedOf(refunds[..|refunds| - 1], order) + if last.order == order then last.amountCents else 0
  }

  function ItemTotal(items: seq<Item>, order: nat): nat {
    if items == [] then 0
    else
      var last := items[|items| - 1];
      ItemTotal(items[..|items| - 1], order) + if last.order == order then last.totalCents else 0
  }

  /** The item a refund goes back to, through its return and its fulfilment. */
  function ItemOf(t: Tables, refund: Refund): nat {
    if refund.request < |t.requests| && t.requests[refund.request].fulfilment < |t.fulfilments| then
      t.fulfilments[t.requests[refund.request].fulfilment].item
    else 0
  }

  /** Each refund goes back to an item of its own, of its order, at that item's price. */
  lemma RefundsInjectIntoItems(t: Tables)
    requires DataOk(t)
    ensures forall k :: 0 <= k < |t.refunds| ==>
              && ItemOf(t, t.refunds[k]) < |t.items|
              && t.refunds[k].order == t.items[ItemOf(t, t.refunds[k])].order
              && t.refunds[k].amountCents == t.items[ItemOf(t, t.refunds[k])].totalCents
    ensures forall k, l :: 0 <= k < l < |t.refunds| ==> ItemOf(t, t.refunds[k]) != ItemOf(t, t.refunds[l])
  {
    forall k | 0 <= k < |t.refunds|
      ensures
        && ItemOf(t, t.refunds[k]) < |t.items|
        && t.refunds[k].order == t.items[ItemOf(t, t.refunds[k])].order
        && t.refunds[k].amountCents == t.items[ItemOf(t, t.refunds[k])].totalCents
    {
      assert RefundOk(t, k) && ReturnOk(t, t.refunds[k].request);
    }
    forall k, l | 0 <= k < l < |t.refunds|
      ensures ItemOf(t, t.refunds[k]) != ItemOf(t, t.refunds[l])
    {
      assert RefundOk(t, k) && RefundOk(t, l);
      assert ReturnOk(t, t.refunds[k].request) && ReturnOk(t, t.refunds[l].request);
    }
  }

  /** Striking an item off lowers the order's total by exactly its price. */
  lemma {:induction false} StrikeOff(items: seq<Item>, i: nat, order: nat)
    requires i < |items|
    ensures ItemTotal(items, order)
            == ItemTotal(items[i := items[i].(totalCents := 0)], order)
               + if items[i].order == order then items[i].totalCents else 0
    decreases |items|
  {
    var last := |items| - 1;
    var struck := items[i := items[i].(totalCents := 0)];
    if i < last {
      assert struck[..last] == items[..last][i := items[i].(totalCents := 0)];
      StrikeOff(items[..last], i, order);
    } else {
      assert struck[..last] == items[..last];
    }
  }

  /** Refunds that go back to different items of their order, each at its item's price, fit in the order's items. */
  lemma {:induction false} InjectedRefundsFit(refunds: seq<Refund>, target: seq<nat>, items: seq<Item>, order: nat)
    requires |target| == |refunds|
    requires forall k :: 0 <= k < |refunds| ==>
               target[k] < |items| && items[target[k]].order == refunds[k].order
                 && items[target[k]].totalCents == refunds[k].amountCents
    requires forall k, l :: 0 <= k < l < |target| ==> target[k] != target[l]
    ensures RefundedOf(refunds, order) <= ItemTotal(items, order)
    decreases |refunds|
  {
    if refunds != [] {
      var last := |refunds| - 1;
      var i := target[last];
      var struck := items[i := items[i].(totalCents := 0)];
      StrikeOff(items, i, order);
      InjectedRefundsFit(refunds[..last], target[..last], struck, order);
    }
  }

  /** The refunds raised for an order never exceed its items, however many retries and requests run at once. */
  lemma RefundsFitTheOrder(steps: seq<Step>, order: nat)
    ensures RefundedOf(Reached(steps).t.refunds, order) <= ItemTotal(Reached(steps).t.items, order)
  {
    ReachedInv(steps);
    var t := Reached(steps).t;
    RefundsInjectIntoItems(t);
    var target := seq(|t.refunds|, k requires 0 <= k < |t.refunds| => ItemOf(t, t.refunds[k]));
    InjectedRefundsFit(t.refunds, target, t.items, order);
  }

  /** A resolved return that raised a refund has had it completed by the provider, and a pending one names it. */
  lemma ResolvedMeansPaidBack(steps: seq<Step>, r: nat)
    requires r < |Reached(steps).t.requests|
    ensures
      var t := Reached(steps).t;
      var row := t.requests[r];
      && (row.status == R.REFUND_PENDING ==> row.refund.Some?)
      && (row.refund.Some? ==> row.refund.value < |t.refunds| && t.refunds[row.refund.value].request == r)
      && (row.status == R.RESOLVED && RefundOf(t.refunds, r).Some? ==>
            row.refund == RefundOf(t.refunds, r) && t.refunds[row.refund.value].status == R.COMPLETED)
  {
    ReachedInv(steps);
    var t := Reached(steps).t;
    assert ReturnOk(t, r);
    if RefundOf(t.refunds, r).Some? {
      assert RefundOk(t, RefundOf(t.refunds, r).value);
    }
  }

  // ---------- The price of a purchase ----------

  /** Whatever is confirmed later, a purchase keeps the amount it was created with. */
  lemma FirstPriceForGood(steps: seq<Step>, more: seq<Step>, f: nat)
    requires f in Reached(steps).t.purchases
    ensures f in Reached(steps + more).t.purchases
    ensures Reached(steps + more).t.purchases[f].amount == Reached(steps).t.purchases[f].amount
  {
    ReachedInv(steps);
    RunSplits(Empty, steps, more);
    RunKeepsInv(Reached(steps), more);
  }

  /** How often the log confirms a fulfilment's availability. */
  function Confirmations(events: seq<Event>, f: nat): nat {
    if events == [] then 0
    else
      var last := events[|events| - 1];
      Confirmations(events[..|events| - 1], f)
      + if last.fulfilment == f && last.action == Some(CONFIRM_AVAILABILITY) then 1 else 0
  }

  lemma OneMoreEvent(events: seq<Event>, e: Event, f: nat)
    ensures Confirmations(events + [e], f)
            == Confirmations(events, f) + if e.fulfilment == f && e.action == Some(CONFIRM_AVAILABILITY) then 1 else 0
  {
    assert (events + [e])[..|events|] == events;
  }

  /** There is a purchase exactly if there was a confirmation, and one confirmation leaves both at the same cost. */
  predicate Priced(t: Tables, f: nat) {
    && (f in t.purchases <==> Confirmations(t.events, f) > 0)
    && (Confirmations(t.events, f) == 1 ==>
          f < |t.fulfilments| && f in t.purchases && t.purchases[f].amount == t.fulfilments[f].totalCost)
  }

  /** So purchase and task disagree on the cost only after a second confirmation, which takes a key of its own. */
  lemma {:induction false} OneConfirmationAgrees(steps: seq<Step>, f: nat)
    ensures Priced(Reached(steps).t, f)
  {
    if steps != [] {
      var earlier, step := steps[..|steps| - 1], steps[|steps| - 1];
      OneConfirmationAgrees(earlier, f);
      ReachedInv(earlier);
      PricedStays(Reached(earlier), step, f);
    }
  }

  lemma PricedStays(s: State, step: Step, f: nat)
    requires Inv(s) && Priced(s.t, f)
    ensures Priced(Apply(s, step).t, f)
  {
    hide Inv, Priced;
    if step.SFinishMove? {
      MovingKeepsPriced(s, step.c, step.clash, f);
    } else if step.SLogTask? {
      LoggingKeepsPriced(s, step.c, f);
    } else {
      OtherStepsKeepPriced(s, step, f);
    }
  }

  lemma LoggingKeepsPriced(s: State, c: ClientId, f: nat)
    requires Priced(s.t, f)
    ensures Priced(LogTask(s, c).t, f)
  {
    var after := LogTask(s, c);
    if after.t != s.t {
      OneMoreEvent(s.t.events, after.t.events[|s.t.events|], f);
    }
  }

  lemma OtherStepsKeepPriced(s: State, step: Step, f: nat)
    requires !step.SFinishMove? && !step.SLogTask? && Priced(s.t, f)
    ensures Priced(Apply(s, step).t, f)
  {
    if ByClient(step) {
      OtherCallsBuyNothing(s, step);
    } else {
      WorldBuysNothing(s.t, step);
    }
  }

  lemma OtherCallsBuyNothing(s: State, step: Step)
    requires ByClient(step) && !step.SFinishMove? && !step.SLogTask?
    ensures Apply(s, step).t.purchases == s.t.purchases && Apply(s, step).t.events == s.t.events
    ensures s.t.fulfilments <= Apply(s, step).t.fulfilments
  {
  }

  lemma WorldBuysNothing(t: Tables, step: Step)
    ensures WorldTables(t, step).events == t.events && WorldTables(t, step).fulfilments == t.fulfilments
    ensures WorldTables(t, step).purchases.Keys == t.purchases.Keys
    ensures forall f :: f in t.purchases ==> WorldTables(t, step).purchases[f].amount == t.purchases[f].amount
  {
  }

  lemma MovingKeepsPriced(s: State, c: ClientId, clash: bool, f: nat)
    requires Inv(s) && Priced(s.t, f)
    ensures Priced(FinishMove(s, c, clash).t, f)
  {
    AtIsSound(s, c);
    var after := FinishMove(s, c, clash);
    if after.t != s.t {
      var move, row := At(s, c).move, At(s, c).row;
      OneMoreEvent(s.t.events, MoveEvent(move, row), f);
      if move.action == CONFIRM_AVAILABILITY {
        ConfirmedCostReachesThePurchase(s, c, clash);
      }
    }
  }

  /** A confirmation prices the fulfilment anew; the purchase agrees only if it is new or priced the same. */
  lemma ConfirmedCostReachesThePurchase(s: State, c: ClientId, clash: bool)
    requires Inv(s) && At(s, c).Prepared? && At(s, c).move.action == CONFIRM_AVAILABILITY
    requires At(FinishMove(s, c, clash), c).AnsweredMove? && At(FinishMove(s, c, clash), c).moveAnswer.Moved?
    ensures
      var f, after := At(s, c).move.fulfilment, FinishMove(s, c, clash);
      && f in after.t.purchases
      && (after.t.purchases[f].amount == after.t.fulfilments[f].totalCost
          <==> (f in s.t.purchases ==> s.t.purchases[f].amount == after.t.fulfilments[f].totalCost))
  {
    AtIsSound(s, c);
  }
}
