/**
 The supplier services as the programs they are: each method is one client's call, with arbitrary steps
 of others between what it reads and what it writes. A transaction's writes are collected in `t` and
 become visible together, or are dropped.
 */
module SupplierService {
  import opened Options
  import opened SupplierRules
  import opened SupplierTables
  import opened SupplierMachine
  import opened SupplierInvariant
  import opened SupplierTheorems
  import opened SupplierEffects
  import O = OrderLifecycle
  import R = ReturnRules

  // ---------- Whose steps a trace is made of ----------

  predicate IsOwn(step: Step, self: ClientId) {
    ByClient(step) && step.c == self
  }

  predicate AllByOthers(steps: seq<Step>, self: ClientId) {
    forall i :: 0 <= i < |steps| ==> !IsOwn(steps[i], self)
  }

  /** How many of the client's own steps have changed the tables. */
  function OwnWrites(trace: seq<Step>, self: ClientId): nat {
    if trace == [] then 0
    else
      var before, step := trace[..|trace| - 1], trace[|trace| - 1];
      OwnWrites(before, self) + if IsOwn(step, self) && Reached(trace).t != Reached(before).t then 1 else 0
  }

  function StepsOfOthers(trace: seq<Step>, self: ClientId): seq<Step> {
    if trace == [] then []
    else
      var before, step := trace[..|trace| - 1], trace[|trace| - 1];
      StepsOfOthers(before, self) + if IsOwn(step, self) then [] else [step]
  }

  /** What the others do in their first n turns. */
  function Scheduled(others: nat -> seq<Step>, n: nat): seq<Step> {
    if n == 0 then [] else Scheduled(others, n - 1) + others(n - 1)
  }

  lemma OwnStep(trace: seq<Step>, step: Step, self: ClientId)
    requires IsOwn(step, self)
    ensures Reached(trace + [step]) == Apply(Reached(trace), step)
    ensures StepsOfOthers(trace + [step], self) == StepsOfOthers(trace, self)
    ensures OwnWrites(trace + [step], self)
            == OwnWrites(trace, self) + if Apply(Reached(trace), step).t != Reached(trace).t then 1 else 0
  {
    assert (trace + [step])[..|trace|] == trace;
    RunExtends(trace, step);
  }

  lemma {:induction false} TurnOfOthers(trace: seq<Step>, steps: seq<Step>, self: ClientId)
    requires AllByOthers(steps, self)
    ensures StepsOfOthers(trace + steps, self) == StepsOfOthers(trace, self) + steps
    ensures OwnWrites(trace + steps, self) == OwnWrites(trace, self)
    ensures At(Reached(trace + steps), self) == At(Reached(trace), self)
    decreases |steps|
  {
    hide Apply;
    if steps == [] {
      assert trace + steps == trace;
    } else {
      var earlier, step := steps[..|steps| - 1], steps[|steps| - 1];
      assert (trace + steps)[..|trace + steps| - 1] == trace + earlier;
      assert trace + steps == (trace + earlier) + [step];
      TurnOfOthers(trace, earlier, self);
      RunExtends(trace + earlier, step);
      StepByOthers(Reached(trace + earlier), step, self);
    }
  }

  lemma NoTurn(s: State)
    ensures Run(s, []) == s
  {
  }

  lemma StepByOthers(s: State, step: Step, self: ClientId)
    requires !IsOwn(step, self)
    ensures At(Apply(s, step), self) == At(s, self)
  {
  }

  lemma MyPlaceIsSound(steps: seq<Step>, c: ClientId)
    ensures ClientOk(Reached(steps).t, At(Reached(steps), c))
  {
    ReachedInv(steps);
    AtIsSound(Reached(steps), c);
  }

  // ---------- What stays true once it is ----------

  /** The line has its task, or another line of its order holds its position. */
  predicate Provided(t: Tables, item: nat, position: nat)
    requires item < |t.items|
  {
    HasTask(t, item) || HeldByAnother(t, item, position)
  }

  lemma LongerTraceIsLater(before: seq<Step>, after: seq<Step>)
    requires before <= after
    ensures Evolves(Reached(before).t, Reached(after).t)
  {
    hide Run;
    ReachedInv(before);
    RunSplits(Empty, before, after[|before|..]);
    assert before + after[|before|..] == after;
    RunKeepsInv(Reached(before), after[|before|..]);
  }

  lemma StaysProvided(before: seq<Step>, after: seq<Step>, item: nat, position: nat)
    requires before <= after && item < |Reached(before).t.items|
    ensures item < |Reached(after).t.items| && Reached(after).t.items[item] == Reached(before).t.items[item]
    ensures HasTask(Reached(before).t, item) ==> HasTask(Reached(after).t, item)
    ensures Provided(Reached(before).t, item, position) ==> Provided(Reached(after).t, item, position)
  {
    hide Run;
    LongerTraceIsLater(before, after);
    var a, b := Reached(before).t, Reached(after).t;
    if HasTask(a, item) {
      var f :| 0 <= f < |a.fulfilments| && a.fulfilments[f].item == item;
      assert SameTask(a.fulfilments[f], b.fulfilments[f]);
    } else if HeldByAnother(a, item, position) {
      var f :| 0 <= f < |a.fulfilments| && a.fulfilments[f].item != item
        && a.fulfilments[f].order == a.items[item].order && a.fulfilments[f].reference.position == position;
      assert SameTask(a.fulfilments[f], b.fulfilments[f]);
    }
  }

  lemma OrdersAreThere(steps: seq<Step>, item: nat)
    requires item < |Reached(steps).t.items|
    ensures Reached(steps).t.items[item].order < |Reached(steps).t.orders|
  {
    ReachedInv(steps);
  }

  lemma TakenWithinTheOrder(steps: seq<Step>, item: nat, position: nat)
    requires item < |Reached(steps).t.items| && Reached(steps).t.items[item].order < |Reached(steps).t.orders|
    ensures ReferenceTaken(Reached(steps).t, LineReference(Reached(steps).t, item, position)) ==>
              Provided(Reached(steps).t, item, position)
  {
    hide Run;
    ReachedInv(steps);
    if !HasTask(Reached(steps).t, item) {
      ReferenceIsTakenWithinTheOrder(Reached(steps).t, item, position);
    }
  }

  // ---------- What the counts of a run say ----------

  predicate Fulfillable(status: O.OrderStatus) {
    status == O.PAID || status == O.CONFIRMED || status == O.SHIPPED || status == O.DELIVERED
  }

  /** Lines that come, or came, from a supplier. */
  function SupplierLines(t: Tables, listing: seq<nat>): (lines: seq<nat>)
    requires forall i :: 0 <= i < |listing| ==> listing[i] < |t.items|
    ensures forall i :: 0 <= i < |lines| ==> lines[i] in listing
  {
    if listing == [] then []
    else
      var last := |listing| - 1;
      var item := t.items[listing[last]];
      SupplierLines(t, listing[..last]) + if item.supplierProduct.Some? || item.titled then [listing[last]] else []
  }

  /** Which lines of a run were made, and which failed, by their place in it. */
  datatype Places = Places(made: set<nat>, failed: set<nat>)

  predicate MadeAt(was: Tables, now: Tables, item: nat) {
    !HasTask(was, item) && HasTask(now, item)
  }

  /**
   The counts add up to the lines. A line counted as created had no task and has one; one counted as an exception
   has no source, no product or ran into a fault; every other one has its task, or its position is another line's.
   */
  predicate Counted(was: Tables, now: Tables, lines: seq<nat>, catalog: nat -> Option<SupplierProduct>,
                    faults: nat -> Fault, tally: Tally, places: Places)
  {
    AddsUp(tally, places, |lines|) && EachCounted(was, now, lines, catalog, faults, places)
  }

  predicate AddsUp(tally: Tally, places: Places, n: nat) {
    && tally.created + tally.skipped + tally.exceptions == n
    && |places.made| == tally.created && |places.failed| == tally.exceptions && places.made !! places.failed
    && (forall p :: p in places.made + places.failed ==> p < n)
  }

  predicate EachCounted(was: Tables, now: Tables, lines: seq<nat>, catalog: nat -> Option<SupplierProduct>,
                        faults: nat -> Fault, places: Places)
  {
    && (forall p :: 0 <= p < |lines| ==> lines[p] < |was.items| && lines[p] < |now.items|)
    && (forall p: nat :: p < |lines| ==> CountedAt(was, now, lines[p], p, catalog, faults(p), places))
  }

  predicate CountedAt(was: Tables, now: Tables, item: nat, p: nat, catalog: nat -> Option<SupplierProduct>,
                      fault: Fault, places: Places)
    requires item < |was.items| && item < |now.items|
  {
    && (p in places.made ==> MadeAt(was, now, item))
    && (p in places.failed ==> Unsourced(was, item, catalog) || fault != NoFault)
    && (was.items[item].supplierProduct.None? ==> p in places.failed)
    && (p !in places.failed ==> Provided(now, item, p + 1))
  }

  function Placed(places: Places, p: nat, result: LineResult): Places {
    match result
    case Made => places.(made := places.made + {p})
    case Present => places
    case Problem => places.(failed := places.failed + {p})
  }

  /** A later line changes nothing about an earlier one's count. */
  lemma StillCounted(was: Tables, before: Tables, now: Tables, item: nat, p: nat,
                     catalog: nat -> Option<SupplierProduct>, fault: Fault, places: Places, index: nat,
                     result: LineResult)
    requires item < |was.items| && |was.items| <= |before.items| <= |now.items| && p < index
    requires CountedAt(was, before, item, p, catalog, fault, places)
    requires HasTask(before, item) ==> HasTask(now, item)
    requires Provided(before, item, p + 1) ==> Provided(now, item, p + 1)
    ensures CountedAt(was, now, item, p, catalog, fault, Placed(places, index, result))
  {
    hide HasTask, HeldByAnother, Unsourced;
  }

  lemma CountsOneMore(was: Tables, before: Tables, now: Tables, lines: seq<nat>, index: nat,
                      catalog: nat -> Option<SupplierProduct>, faults: nat -> Fault,
                      tally: Tally, places: Places, result: LineResult)
    requires index < |lines| && Counted(was, before, lines[..index], catalog, faults, tally, places)
    requires lines[index] < |was.items| && |was.items| <= |before.items| <= |now.items|
    requires forall p: nat :: p < index ==>
               && (HasTask(before, lines[p]) ==> HasTask(now, lines[p]))
               && (lines[p] < |before.items| && Provided(before, lines[p], p + 1) ==> Provided(now, lines[p], p + 1))
    requires result == Made ==> MadeAt(was, now, lines[index])
    requires result == Problem ==> Unsourced(was, lines[index], catalog) || faults(index) != NoFault
    requires was.items[lines[index]].supplierProduct.None? ==> result == Problem
    requires result != Problem ==> Provided(now, lines[index], index + 1)
    ensures Counted(was, now, lines[..index + 1], catalog, faults, Plus(tally, result), Placed(places, index, result))
  {
    hide HasTask, HeldByAnother, Unsourced, Provided, MadeAt, CountedAt, AddsUp;
    var more, placed := lines[..index + 1], Placed(places, index, result);
    OneMoreAddsUp(tally, places, index, result);
    NewlyCounted(was, now, lines[index], index, catalog, faults(index), places, result);
    forall p: nat | p < |more|
      ensures more[p] < |was.items| && more[p] < |now.items|
      ensures CountedAt(was, now, more[p], p, catalog, faults(p), placed)
    {
      if p < index {
        assert lines[..index][p] == more[p];
        StillCounted(was, before, now, more[p], p, catalog, faults(p), places, index, result);
      }
    }
  }

  lemma OneMoreAddsUp(tally: Tally, places: Places, n: nat, result: LineResult)
    requires AddsUp(tally, places, n)
    ensures n !in places.made + places.failed && AddsUp(Plus(tally, result), Placed(places, n, result), n + 1)
  {
  }

  lemma NewlyCounted(was: Tables, now: Tables, item: nat, index: nat, catalog: nat -> Option<SupplierProduct>,
                     fault: Fault, places: Places, result: LineResult)
    requires item < |was.items| <= |now.items| && index !in places.made + places.failed
    requires result == Made ==> MadeAt(was, now, item)
    requires result == Problem ==> Unsourced(was, item, catalog) || fault != NoFault
    requires was.items[item].supplierProduct.None? ==> result == Problem
    requires result != Problem ==> Provided(now, item, index + 1)
    ensures CountedAt(was, now, item, index, catalog, fault, Placed(places, index, result))
  {
    hide HasTask, HeldByAnother, Unsourced, Provided, MadeAt;
  }

  class Clerk {
    const self: ClientId
    const others: nat -> seq<Step>
    var s: State
    var turn: nat
    ghost var trace: seq<Step>

    /** The tables are what the trace leads to, and the trace is this client's steps and the others' turns so far. */
    ghost predicate Valid() reads this {
      && s == Reached(trace) && StepsOfOthers(trace, self) == Scheduled(others, turn)
      && forall n :: AllByOthers(others(n), self)
    }

    ghost predicate Alone() {
      forall n :: others(n) == []
    }

    /** How many times this client has changed the tables. */
    ghost function Writes(): nat reads this {
      OwnWrites(trace, self)
    }

    constructor (self: ClientId, others: nat -> seq<Step>)
      requires forall n :: AllByOthers(others(n), self)
      ensures Valid() && this.self == self && s == Empty && Writes() == 0
    {
      this.self := self;
      this.others := others;
      s := Empty;
      turn := 0;
      trace := [];
    }

    /** Others run. */
    method Await()
      requires Valid()
      modifies this
      ensures Valid() && old(trace) <= trace && Writes() == old(Writes())
      ensures At(s, self) == old(At(s, self)) && (Alone() ==> s == old(s))
    {
      hide Run, OwnWrites, StepsOfOthers;
      TurnOfOthers(trace, others(turn), self);
      RunSplits(Empty, trace, others(turn));
      NoTurn(s);
      s := Run(s, others(turn));
      trace := trace + others(turn);
      turn := turn + 1;
    }

    // ---------- transitionSupplierFulfilment ----------

    /**
     One transition call. It writes exactly once when it answers that it moved, and then its line is in the log,
     starting where the table lets the move start; otherwise it writes nothing. Undisturbed it does exactly `Called`:
     it moves if and only if the move is permitted and no unique value is taken.
     */
    method TransitionSupplierFulfilment(move: Move, clash: bool) returns (answer: MoveAnswer)
      requires Valid() && AtRest(s, self)
      modifies this
      ensures Valid() && AtRest(s, self) && old(trace) <= trace
      ensures Writes() == old(Writes()) + if answer.Moved? then 1 else 0
      ensures answer.Moved? ==> LoggedAs(s.t, move, answer)
      ensures answer.Idempotent? ==> clash || KeyUsed(s.t.events, KeyOf(move))
      ensures answer == MoveAnswer.Failed(NotFound) ==> move.fulfilment >= |s.t.fulfilments|
      ensures Alone() ==> (s.t, answer) == Called(old(s).t, move, clash)
      ensures Alone() ==> (answer.Moved? <==>
                Permitted(old(s).t, move) && !clash && !KeyUsed(old(s).t.events, KeyOf(move)))
    {
      hide Run, Called, Permitted, OwnWrites, StepsOfOthers, KeyUsed;
      UndisturbedCall(s, self, move, clash);
      WhenACallIsAbsorbed(s.t, move, clash);
      Await();
      var early := LoadRow(move);
      if early.Some? {
        AnsweredStays(s, self, clash);
        return early.value;
      }
      Await();
      early := Examine(move);
      if early.Some? {
        AnsweredStays(s, self, clash);
        return early.value;
      }
      Await();
      answer := WriteMove(move, At(s, self).row, clash);
    }

    method LoadRow(move: Move) returns (early: Option<MoveAnswer>)
      requires Valid() && AtRest(s, self)
      modifies this
      ensures Valid() && old(trace) <= trace && Writes() == old(Writes()) && s == LoadMove(old(s), self, move)
      ensures if early.Some? then At(s, self) == AnsweredMove(early.value)
              else At(s, self).Loaded? && At(s, self).move == move
      ensures early.Some? ==>
                early.value.Failed? && (early.value.error == NotFound ==> move.fulfilment >= |s.t.fulfilments|)
    {
      hide Run;
      OwnStep(trace, SLoadMove(self, move), self);
      s := LoadMove(s, self, move);
      trace := trace + [SLoadMove(self, move)];
      early := if At(s, self).AnsweredMove? then Some(At(s, self).moveAnswer) else None;
    }

    /** Decides on the row read; a row already there asks the log whether this call put it there. */
    method Examine(move: Move) returns (early: Option<MoveAnswer>)
      requires Valid() && At(s, self).Loaded? && At(s, self).move == move
      modifies this
      ensures Valid() && old(trace) <= trace && Writes() == old(Writes()) && s == PrepareMove(old(s), self)
      ensures if early.Some? then At(s, self) == AnsweredMove(early.value)
              else At(s, self).Prepared? && At(s, self).move == move
      ensures early.Some? ==> !early.value.Moved? && (early.value.Idempotent? ==> KeyUsed(s.t.events, KeyOf(move)))
      ensures early.Some? ==> early.value != MoveAnswer.Failed(NotFound)
    {
      hide Run;
      OwnStep(trace, SPrepareMove(self), self);
      s := PrepareMove(s, self);
      trace := trace + [SPrepareMove(self)];
      early := if At(s, self).AnsweredMove? then Some(At(s, self).moveAnswer) else None;
    }

    /** The writing half of the transaction, statement by statement: conditional update, purchase, shipment, log. */
    method WriteMove(move: Move, row: Fulfilment, clash: bool) returns (answer: MoveAnswer)
      requires Valid() && At(s, self) == Prepared(move, row)
      modifies this
      ensures Valid() && old(trace) <= trace
      ensures s == FinishMove(old(s), self, clash) && At(s, self) == AnsweredMove(answer)
      ensures Writes() == old(Writes()) + if answer.Moved? then 1 else 0
      ensures answer.Moved? ==> LoggedAs(s.t, move, answer)
      ensures answer.Idempotent? ==> clash || KeyUsed(s.t.events, KeyOf(move))
      ensures answer.Failed? ==> answer.error == ConcurrentUpdate
    {
      hide Run;
      MyPlaceIsSound(trace, self);
      OwnStep(trace, SFinishMove(self, clash), self);
      trace := trace + [SFinishMove(self, clash)];
      var f, to := move.fulfilment, Target(move.action);
      if s.t.fulfilments[f].status != row.status {
        answer := MoveAnswer.Failed(ConcurrentUpdate);
        s := Go(s, self, AnsweredMove(answer));
        return;
      }
      var t := WriteRows(s.t, move, row);
      if clash || KeyUsed(s.t.events, KeyOf(move)) {
        answer := Idempotent;
        s := Go(s, self, AnsweredMove(answer));
        return;
      }
      t := t.(events := t.events + [Event(f, row.status, to, Some(move.action), KeyOf(move))]);
      answer := Moved(row.status, to);
      s := Go(s.(t := t), self, AnsweredMove(answer));
      assert s.t.events[|s.t.events| - 1] == MoveEvent(move, row);
    }

    /** Everything the transaction writes before its log line. */
    method WriteRows(was: Tables, move: Move, row: Fulfilment) returns (t: Tables)
      requires move.fulfilment < |was.fulfilments|
      requires move.action == CONFIRM_AVAILABILITY ==> move.finalUnitCost.Some?
      ensures t == MovedTables(was, move, row).(events := was.events)
    {
      var f := move.fulfilment;
      var data := was.fulfilments[f].(status := Target(move.action));
      if move.action == CONFIRM_AVAILABILITY {
        var unitCost := move.finalUnitCost.value;
        data := data.(unitCost := unitCost, totalCost := unitCost * row.quantity + row.deliveryCharge);
      }
      t := was.(fulfilments := was.fulfilments[f := data]);
      match move.action {
        case CONFIRM_AVAILABILITY =>
          var purchases := EnsurePurchaseRow(t.purchases, f, row.(unitCost := move.finalUnitCost.value));
          t := t.(purchases := purchases);
        case REPORT_FAILURE =>
          t := t.(purchases := Restated(t.purchases, f, {PENDING_CONFIRMATION, PURCHASE_CONFIRMED}, PURCHASE_FAILED));
        case CANCEL =>
          t := t.(purchases := Restated(t.purchases, f, {PENDING_CONFIRMATION, PURCHASE_CONFIRMED},
            PURCHASE_CANCELLED));
        case RETRY =>
          t := t.(purchases := Restated(t.purchases, f, {PURCHASE_FAILED, PURCHASE_CANCELLED}, PENDING_CONFIRMATION));
        case _ =>
          t := t.(shipments := MovedShipments(t.shipments, move, row.order));
      }
      if move.action == RECORD_DELIVERY {
        t := t.(deliveredOrders := t.deliveredOrders + {row.order});
      }
    }

    /** Leaves the purchase as it is if there is one, whatever it cost. */
    method EnsurePurchaseRow(was: map<nat, Purchase>, f: nat, row: Fulfilment) returns (purchases: map<nat, Purchase>)
      ensures f in purchases && forall g :: g in was ==> g in purchases && purchases[g] == was[g]
      ensures purchases.Keys == was.Keys + {f}
      ensures f !in was ==>
                purchases[f] == Purchase(PENDING_CONFIRMATION, row.quantity * row.unitCost + row.deliveryCharge)
    {
      if f in was {
        return was;
      }
      purchases := was[f := Purchase(PENDING_CONFIRMATION, row.quantity * row.unitCost + row.deliveryCharge)];
    }

    // ---------- ensureSupplierFulfilmentsForPaidOrder ----------

    /**
     One supplier line: look for its task, create it, log the creation. The creation and its log line are two
     writes, so a failure between them leaves a task without its first line. Undisturbed it does exactly `ProvidedBy`.
     */
    method ProvideTask(item: nat, position: nat, catalog: nat -> Option<SupplierProduct>, fault: Fault)
      returns (result: LineResult)
      requires Valid() && AtRest(s, self) && item < |s.t.items| && s.t.items[item].order < |s.t.orders|
      modifies this
      ensures Valid() && AtRest(s, self) && old(trace) <= trace && item < |s.t.items|
      ensures result != Problem ==> Provided(s.t, item, position)
      ensures result == Problem ==> Unsourced(old(s).t, item, catalog) || fault != NoFault
      ensures old(s).t.items[item].supplierProduct.None? ==> result == Problem
      ensures result == Made ==> MadeAt(old(s).t, s.t, item)
      ensures Alone() ==> (s.t, result) == ProvidedBy(old(s).t, item, position, catalog, fault)
    {
      hide Run, OwnWrites, StepsOfOthers, HasTask, HeldByAnother, ReferenceTaken;
      ghost var began := trace;
      var line := s.t.items[item];
      if line.supplierProduct.None? {
        return Problem;
      }
      Await();
      StaysProvided(began, trace, item, position);
      if HasTask(s.t, item) {
        return Present;
      }
      var product := catalog(line.supplierProduct.value);
      if product.None? {
        return Problem;
      }
      Await();
      StaysProvided(began, trace, item, position);
      if fault == CreateFails {
        return Problem;
      }
      OrdersAreThere(trace, item);
      TakenWithinTheOrder(trace, item, position);
      if HasTask(s.t, item) || ReferenceTaken(s.t, LineReference(s.t, item, position)) {
        return Present;
      }
      result := CreateAndLog(item, position, product.value, fault);
    }

    method CreateAndLog(item: nat, position: nat, product: SupplierProduct, fault: Fault) returns (result: LineResult)
      requires Valid() && AtRest(s, self) && item < |s.t.items| && s.t.items[item].order < |s.t.orders|
      requires !HasTask(s.t, item) && !ReferenceTaken(s.t, LineReference(s.t, item, position))
      modifies this
      ensures Valid() && AtRest(s, self) && old(trace) <= trace && item < |s.t.items|
      ensures HasTask(s.t, item) && (result == Problem <==> fault == LogFails)
      ensures Alone() ==>
                var was := old(s).t;
                var created := was.(fulfilments := was.fulfilments + [NewTask(was, item, position, product)]);
                (s.t, result) == if fault == LogFails then (created, Problem)
                                 else if KeyUsed(was.events, PaymentKey(item)) then (created, Present)
                                 else (created.(events := was.events + [CreationEvent(|was.fulfilments|, item)]), Made)
    {
      hide Run, OwnWrites, StepsOfOthers;
      InsertTask(item, position, product);
      ghost var created := trace;
      Await();
      if fault == LogFails {
        GiveUp();
        result := Problem;
      } else {
        result := InsertFirstLine();
      }
      StaysProvided(created, trace, item, position);
    }

    method GiveUp()
      requires Valid()
      modifies this
      ensures Valid() && At(s, self).Idle? && old(trace) <= trace && s.t == old(s).t && Writes() == old(Writes())
    {
      hide Run;
      OwnStep(trace, SStop(self), self);
      s := Go(s, self, Idle);
      trace := trace + [SStop(self)];
    }

    method InsertTask(item: nat, position: nat, product: SupplierProduct)
      requires Valid() && AtRest(s, self) && item < |s.t.items| && s.t.items[item].order < |s.t.orders|
      requires !HasTask(s.t, item) && !ReferenceTaken(s.t, LineReference(s.t, item, position))
      modifies this
      ensures Valid() && old(trace) <= trace && Writes() == old(Writes()) + 1
      ensures s.t == old(s).t.(fulfilments := old(s).t.fulfilments + [NewTask(old(s).t, item, position, product)])
      ensures At(s, self) == Logging(|old(s).t.fulfilments|) && HasTask(s.t, item)
      ensures s.t.fulfilments[|old(s).t.fulfilments|].item == item
    {
      hide Run;
      OwnStep(trace, SCreateTask(self, item, position, product), self);
      var row := NewTask(s.t, item, position, product);
      var f := |s.t.fulfilments|;
      s := Go(s.(t := s.t.(fulfilments := s.t.fulfilments + [row])), self, Logging(f));
      trace := trace + [SCreateTask(self, item, position, product)];
      assert s.t.fulfilments[f].item == item;
    }

    /** The log line is not written if its key is already there; the task is then counted as skipped. */
    method InsertFirstLine() returns (result: LineResult)
      requires Valid() && At(s, self).Logging?
      modifies this
      ensures Valid() && At(s, self).Idle? && old(trace) <= trace && s == LogTask(old(s), self)
      ensures result == if s.t == old(s).t then Present else Made
      ensures Writes() == old(Writes()) + if result == Made then 1 else 0
    {
      hide Run;
      MyPlaceIsSound(trace, self);
      OwnStep(trace, SLogTask(self), self);
      trace := trace + [SLogTask(self)];
      var f := At(s, self).f;
      var item := s.t.fulfilments[f].item;
      if KeyUsed(s.t.events, PaymentKey(item)) {
        s := Go(s, self, Idle);
        return Present;
      }
      s := Go(s.(t := s.t.(events := s.t.events + [CreationEvent(f, item)])), self, Idle);
      result := Made;
    }

    /**
     One task per supplier line of a paid order. What its counts say is `Counted`; undisturbed its effect and its
     counts are exactly `EnsuredBy`, which `WhenLinesGetTheirTasks` explains line by line.
     */
    method EnsureSupplierFulfilmentsForPaidOrder(o: nat, listing: seq<nat>, catalog: nat -> Option<SupplierProduct>,
                                                 faults: nat -> Fault)
      returns (tally: Option<Tally>, ghost places: Places)
      requires Valid() && AtRest(s, self)
      requires o < |s.t.orders| ==> ListingOf(s.t, o, listing)
      modifies this
      ensures Valid() && AtRest(s, self) && old(trace) <= trace
      ensures tally.None? <==> o >= |old(s).t.orders|
      ensures tally.None? || !Fulfillable(old(s).t.orders[o].status) ==> s == old(s)
      ensures tally.Some? && !Fulfillable(old(s).t.orders[o].status) ==> tally.value == Tally(0, 0, 0)
      ensures tally.Some? && Fulfillable(old(s).t.orders[o].status) ==>
                Counted(old(s).t, s.t, SupplierLines(old(s).t, listing), catalog, faults, tally.value, places)
      ensures tally.Some? && Fulfillable(old(s).t.orders[o].status) && Alone() ==>
                ListingOf(old(s).t, o, SupplierLines(old(s).t, listing))
                && (s.t, tally.value) == EnsuredBy(old(s).t, o, SupplierLines(old(s).t, listing), catalog, faults)
    {
      hide Run, OwnWrites, StepsOfOthers, EnsuredBy, Counted;
      places := Places({}, {});
      if o >= |s.t.orders| {
        return None, places;
      }
      if !Fulfillable(s.t.orders[o].status) {
        return Some(Tally(0, 0, 0)), places;
      }
      var supplierItems := SupplierLines(s.t, listing);
      var counts;
      counts, places := ProvideLines(o, supplierItems, catalog, faults);
      tally := Some(counts);
    }

    method ProvideLines(o: nat, lines: seq<nat>, catalog: nat -> Option<SupplierProduct>, faults: nat -> Fault)
      returns (tally: Tally, ghost places: Places)
      requires Valid() && AtRest(s, self) && ListingOf(s.t, o, lines)
      modifies this
      ensures Valid() && AtRest(s, self) && old(trace) <= trace
      ensures Counted(old(s).t, s.t, lines, catalog, faults, tally, places)
      ensures Alone() ==> (s.t, tally) == EnsuredBy(old(s).t, o, lines, catalog, faults)
    {
      hide Run, OwnWrites, StepsOfOthers, Provided, MadeAt, Unsourced, ProvidedBy;
      ghost var began, was := trace, s.t;
      tally, places := Tally(0, 0, 0), Places({}, {});
      var index := 0;
      while index < |lines|
        invariant 0 <= index <= |lines| && Valid() && AtRest(s, self) && began <= trace
        invariant Counted(was, s.t, lines[..index], catalog, faults, tally, places)
        invariant Alone() ==> (s.t, tally) == EnsuredBy(was, o, lines[..index], catalog, faults)
      {
        tally, places := CountLine(began, was, o, lines, index, catalog, faults, tally, places);
        index := index + 1;
      }
      assert lines[..index] == lines;
    }

    /** One turn of the loop, over a listing read when the trace was `began`. */
    method CountLine(ghost began: seq<Step>, ghost was: Tables, ghost o: nat, lines: seq<nat>, index: nat,
                     catalog: nat -> Option<SupplierProduct>, faults: nat -> Fault, tally: Tally, ghost places: Places)
      returns (more: Tally, ghost placed: Places)
      requires Valid() && AtRest(s, self) && began <= trace && was == Reached(began).t && index < |lines|
      requires ListingOf(was, o, lines)
      requires Counted(was, s.t, lines[..index], catalog, faults, tally, places)
      requires Alone() ==> (s.t, tally) == EnsuredBy(was, o, lines[..index], catalog, faults)
      modifies this
      ensures Valid() && AtRest(s, self) && old(trace) <= trace
      ensures Counted(was, s.t, lines[..index + 1], catalog, faults, more, placed)
      ensures Alone() ==> (s.t, more) == EnsuredBy(was, o, lines[..index + 1], catalog, faults)
    {
      hide Run, OwnWrites, StepsOfOthers, Provided, MadeAt, Unsourced, ProvidedBy, Counted;
      ghost var before, reached := s.t, trace;
      var result := ProvideLine(began, lines[index], index + 1, catalog, faults(index));
      LinesStayProvided(began, reached, trace, lines);
      CountsOneMore(was, before, s.t, lines, index, catalog, faults, tally, places, result);
      assert lines[..index + 1][..index] == lines[..index];
      more := Plus(tally, result);
      placed := Placed(places, index, result);
    }

    /** The next line of a list read when the trace was `began`. */
    method ProvideLine(ghost began: seq<Step>, item: nat, position: nat, catalog: nat -> Option<SupplierProduct>,
                       fault: Fault)
      returns (result: LineResult)
      requires Valid() && AtRest(s, self) && began <= trace && item < |Reached(began).t.items|
      modifies this
      ensures Valid() && AtRest(s, self) && old(trace) <= trace && item < |old(s).t.items| && item < |s.t.items|
      ensures old(s).t.items[item].order < |old(s).t.orders|
      ensures result != Problem ==> Provided(s.t, item, position)
      ensures result == Problem ==> Unsourced(Reached(began).t, item, catalog) || fault != NoFault
      ensures Reached(began).t.items[item].supplierProduct.None? ==> result == Problem
      ensures result == Made ==> MadeAt(Reached(began).t, s.t, item)
      ensures Alone() ==> (s.t, result) == ProvidedBy(old(s).t, item, position, catalog, fault)
    {
      hide Run, OwnWrites, StepsOfOthers, HasTask, HeldByAnother, ProvidedBy;
      StaysProvided(began, trace, item, position);
      OrdersAreThere(trace, item);
      result := ProvideTask(item, position, catalog, fault);
    }

    // ---------- createSupplierReturnRequest ----------

    /**
     A buyer's return. It writes exactly once when it answers that it filed one, and then the order has an open
     case; otherwise it writes nothing. Undisturbed it does exactly `FiledBy`.
     */
    method CreateSupplierReturnRequest(filing: Filing, clash: bool) returns (answer: ReturnAnswer)
      requires Valid() && AtRest(s, self)
      modifies this
      ensures Valid() && AtRest(s, self) && old(trace) <= trace
      ensures Writes() == old(Writes()) + if answer.Filed? then 1 else 0
      ensures answer.Filed? || answer.AlreadyFiled? || answer.ReturnFailed?
      ensures answer.AlreadyFiled? ==>
                answer.request < |s.t.requests| && s.t.requests[answer.request].key == FilingKey(filing)
      ensures answer.Filed? ==> FiledAs(s.t, filing, answer.request)
      ensures Alone() ==> (s.t, answer) == FiledBy(old(s).t, filing, clash)
    {
      hide Run, OwnWrites, StepsOfOthers, FiledBy;
      UndisturbedFiling(s, self, filing, clash);
      Await();
      var early := LookUpReturn(filing);
      if early.Some? {
        AnsweredReturnStays(s, self, clash);
        return early.value;
      }
      Await();
      answer := WriteReturn(filing, At(s, self).row, clash);
    }

    method LookUpReturn(filing: Filing) returns (early: Option<ReturnAnswer>)
      requires Valid() && AtRest(s, self)
      modifies this
      ensures Valid() && old(trace) <= trace && Writes() == old(Writes()) && s == LoadFiling(old(s), self, filing)
      ensures if early.Some? then At(s, self) == AnsweredReturn(early.value)
              else At(s, self).Requesting? && At(s, self).filing == filing
      ensures early.Some? ==> early.value.ReturnFailed? || early.value.AlreadyFiled?
      ensures early.Some? && early.value.AlreadyFiled? ==>
                early.value.request < |s.t.requests| && s.t.requests[early.value.request].key == FilingKey(filing)
    {
      hide Run;
      OwnStep(trace, SLoadFiling(self, filing), self);
      s := LoadFiling(s, self, filing);
      trace := trace + [SLoadFiling(self, filing)];
      early := if At(s, self).AnsweredReturn? then Some(At(s, self).returnAnswer) else None;
    }

    /** Inserts the request and opens the order's case, or opens it again. */
    method WriteReturn(filing: Filing, row: Fulfilment, clash: bool) returns (answer: ReturnAnswer)
      requires Valid() && At(s, self) == Requesting(filing, row)
      modifies this
      ensures Valid() && old(trace) <= trace
      ensures s == FileReturn(old(s), self, clash) && At(s, self) == AnsweredReturn(answer)
      ensures Writes() == old(Writes()) + if answer.Filed? then 1 else 0
      ensures answer.Filed? || answer == ReturnFailed(Duplicate)
      ensures answer.Filed? ==> FiledAs(s.t, filing, answer.request)
    {
      hide Run;
      MyPlaceIsSound(trace, self);
      OwnStep(trace, SFileReturn(self, clash), self);
      trace := trace + [SFileReturn(self, clash)];
      if clash || ReturnKeyUsed(s.t, FilingKey(filing)) || HasReturn(s.t, filing.fulfilment) {
        answer := ReturnFailed(Duplicate);
        s := Go(s, self, AnsweredReturn(answer));
        return;
      }
      var request := |s.t.requests|;
      var t := s.t.(requests := s.t.requests + [NewReturn(filing, row)]);
      if row.order !in t.cases {
        t := t.(cases := t.cases[row.order := R.OPEN]);
      } else {
        var shouldReopen := t.cases[row.order] != R.OPEN && t.cases[row.order] != R.UNDER_REVIEW;
        if shouldReopen {
          t := t.(cases := t.cases[row.order := R.OPEN]);
        }
      }
      answer := Filed(request);
      s := Go(s.(t := t), self, AnsweredReturn(answer));
    }

    // ---------- updateSupplierReturnStatus ----------

    /**
     An administrator's decision. It writes exactly once when it is made, and nothing otherwise; a return then
     waiting for its refund names one raised for it, over the price of its line; one resolved out of waiting has
     its refund completed. Undisturbed it does exactly `DecidedBy`.
     */
    method UpdateSupplierReturnStatus(decision: Decision, clash: bool) returns (answer: ReturnAnswer)
      requires Valid() && AtRest(s, self)
      modifies this
      ensures Valid() && AtRest(s, self) && old(trace) <= trace
      ensures Writes() == old(Writes()) + if answer.Decided? then 1 else 0
      ensures answer.Decided? || answer.ReturnFailed?
      ensures answer.Decided? ==>
                answer.to == decision.status && decision.request < |s.t.requests|
                && KeepsItsWord(s.t, decision.request, answer.from, answer.to, answer.refund)
      ensures Alone() ==> (s.t, answer) == DecidedBy(old(s).t, decision, clash)
    {
      hide Run, OwnWrites, StepsOfOthers, DecidedBy;
      UndisturbedDecision(s, self, decision, clash);
      Await();
      var early := LookUpRequest(decision);
      if early.Some? {
        AnsweredReturnStays(s, self, clash);
        return early.value;
      }
      Await();
      answer := WriteDecision(decision, At(s, self).request, At(s, self).refund, clash);
    }

    method LookUpRequest(decision: Decision) returns (early: Option<ReturnAnswer>)
      requires Valid() && AtRest(s, self)
      modifies this
      ensures Valid() && old(trace) <= trace && Writes() == old(Writes()) && s == LoadDecision(old(s), self, decision)
      ensures if early.Some? then At(s, self) == AnsweredReturn(early.value)
              else At(s, self).Deciding? && At(s, self).decision == decision
      ensures early.Some? ==> early.value.ReturnFailed?
    {
      hide Run;
      OwnStep(trace, SLoadDecision(self, decision), self);
      s := LoadDecision(s, self, decision);
      trace := trace + [SLoadDecision(self, decision)];
      early := if At(s, self).AnsweredReturn? then Some(At(s, self).returnAnswer) else None;
    }

    method WriteDecision(decision: Decision, row: Return, seen: Option<R.RefundStatus>, clash: bool)
      returns (answer: ReturnAnswer)
      requires Valid() && At(s, self) == Deciding(decision, row, seen)
      modifies this
      ensures Valid() && old(trace) <= trace
      ensures s == Decide(old(s), self, clash) && At(s, self) == AnsweredReturn(answer)
      ensures Writes() == old(Writes()) + if answer.Decided? then 1 else 0
      ensures answer.Decided? || answer.ReturnFailed?
      ensures answer.Decided? ==>
                answer.to == decision.status && decision.request < |s.t.requests|
                && KeepsItsWord(s.t, decision.request, answer.from, answer.to, answer.refund)
    {
      hide Run;
      MyPlaceIsSound(trace, self);
      DecisionKeepsItsWord(trace, decision, row, seen);
      OwnStep(trace, SDecide(self, clash), self);
      trace := trace + [SDecide(self, clash)];
      var t, refund, error := DecideInTransaction(s.t, decision, row, seen, clash);
      if error.Some? {
        answer := ReturnFailed(error.value);
        s := Go(s, self, AnsweredReturn(answer));
        return;
      }
      answer := Decided(row.status, decision.status, refund);
      s := Go(s.(t := t), self, AnsweredReturn(answer));
    }

    /** The statements of the transaction: the refund first, then the judgement, the conditional update, the case. */
    method DecideInTransaction(was: Tables, decision: Decision, row: Return, seen: Option<R.RefundStatus>, clash: bool)
      returns (t: Tables, refund: Option<nat>, error: Option<ReturnError>)
      requires decision.request < |was.requests|
      ensures error == Ruling(was, decision, row, seen, clash)
      ensures error.None? ==> t == DecidedTables(was, decision, row) && refund == RefundFor(was, decision, row)
    {
      t, refund, error := was, row.refund, None;
      var refundStatus := seen;
      if decision.status == R.REFUND_PENDING && row.status != R.REFUND_PENDING {
        if row.order !in was.settled {
          error := Some(RefundSourceMissing);
          return;
        }
        var existing := RefundOf(was.refunds, decision.request);
        if existing.Some? {
          refund, refundStatus := existing, Some(was.refunds[existing.value].status);
        } else {
          refund, refundStatus := Some(|was.refunds|), Some(R.PENDING);
          var owed := LineTotal(was, row.fulfilment);
          t := t.(refunds := t.refunds + [Refund(decision.request, row.order, owed, R.PENDING)]);
        }
      }
      var objection := R.Objection(row.status, decision.status, refundStatus, decision.note);
      if objection.Some? {
        error := Some(DecisionRefused(objection.value));
        return;
      }
      if was.requests[decision.request].status != row.status {
        error := Some(DecisionConcurrent);
        return;
      }
      if clash {
        error := Some(DuplicateRefund);
        return;
      }
      t := t.(requests := t.requests[decision.request :=
        DecidedReturn(t.requests[decision.request], decision, refund)]);
      if row.order in t.cases && R.Closes(decision.status) {
        var responsibility := if decision.responsibility.Some? then decision.responsibility.value
          else row.responsibility;
        var caseStatus := R.CLOSED;
        if responsibility == R.BUYER {
          caseStatus := R.RESOLVED_SELLER;
        } else if responsibility != R.UNDETERMINED {
          caseStatus := R.RESOLVED_BUYER;
        }
        t := t.(cases := t.cases[row.order := caseStatus]);
      }
    }
  }

  /** The move's line is in the log, and the table lets it start where it did. */
  predicate LoggedAs(t: Tables, move: Move, answer: MoveAnswer)
    requires answer.Moved?
  {
    && answer.to == Target(move.action) && answer.to in Transitions(answer.from)
    && Event(move.fulfilment, answer.from, answer.to, Some(move.action), KeyOf(move)) in t.events
  }

  /** The return is there as filed, and the order's case is being worked on. */
  predicate FiledAs(t: Tables, filing: Filing, request: nat) {
    && request < |t.requests|
    && var row := t.requests[request];
       && row.fulfilment == filing.fulfilment && row.buyer == filing.buyer && row.key == FilingKey(filing)
       && row.status == R.REQUESTED && row.refund.None?
       && row.order in t.cases && (t.cases[row.order] == R.OPEN || t.cases[row.order] == R.UNDER_REVIEW)
  }

  lemma LinesStayProvided(began: seq<Step>, before: seq<Step>, after: seq<Step>, lines: seq<nat>)
    requires began <= before <= after
    requires forall i :: 0 <= i < |lines| ==> lines[i] < |Reached(began).t.items|
    ensures |Reached(began).t.items| <= |Reached(before).t.items| <= |Reached(after).t.items|
    ensures forall p: nat :: p < |lines| ==>
              && (HasTask(Reached(before).t, lines[p]) ==> HasTask(Reached(after).t, lines[p]))
              && (Provided(Reached(before).t, lines[p], p + 1) ==> Provided(Reached(after).t, lines[p], p + 1))
  {
    hide Run, Provided, HasTask;
    LongerTraceIsLater(began, before);
    LongerTraceIsLater(before, after);
    forall p: nat | p < |lines|
      ensures HasTask(Reached(before).t, lines[p]) ==> HasTask(Reached(after).t, lines[p])
      ensures Provided(Reached(before).t, lines[p], p + 1) ==> Provided(Reached(after).t, lines[p], p + 1)
    {
      StaysProvided(before, after, lines[p], p + 1);
    }
  }

  /** The refund is this return's own, over the price of its line. */
  predicate RefundRaised(t: Tables, request: nat, refund: Option<nat>)
    requires request < |t.requests|
  {
    && refund.Some? && refund.value < |t.refunds| && t.requests[request].refund == refund
    && t.refunds[refund.value].request == request
    && t.refunds[refund.value].amountCents == LineTotal(t, t.requests[request].fulfilment)
  }

  /** What a decision that is made has done about the money. */
  predicate KeepsItsWord(t: Tables, request: nat, from: R.Status, to: R.Status, refund: Option<nat>)
    requires request < |t.requests|
  {
    && t.requests[request].status == to && to in R.Transitions(from)
    && (to == R.REFUND_PENDING ==> RefundRaised(t, request, refund))
    && (from == R.REFUND_PENDING && to == R.RESOLVED ==>
          RefundRaised(t, request, refund) && t.refunds[refund.value].status == R.COMPLETED)
  }

  lemma DecisionKeepsItsWord(steps: seq<Step>, decision: Decision, row: Return, seen: Option<R.RefundStatus>)
    requires ClientOk(Reached(steps).t, Deciding(decision, row, seen))
    ensures
      var t := Reached(steps).t;
      Ruling(t, decision, row, seen, false).None? ==>
        KeepsItsWord(DecidedTables(t, decision, row), decision.request, row.status, decision.status,
          RefundFor(t, decision, row))
  {
    ReachedInv(steps);
    var t := Reached(steps).t;
    if Ruling(t, decision, row, seen, false).None? {
      DecisionIsSound(t, decision, row, seen);
      MoneyFollows(t, decision, row, seen);
    }
  }

  lemma MoneyFollows(t: Tables, decision: Decision, row: Return, seen: Option<R.RefundStatus>)
    requires DataOk(t) && ClientOk(t, Deciding(decision, row, seen)) && Ruling(t, decision, row, seen, false).None?
    requires DataOk(DecidedTables(t, decision, row))
    ensures KeepsItsWord(DecidedTables(t, decision, row), decision.request, row.status, decision.status,
            RefundFor(t, decision, row))
  {
    var b, refund := DecidedTables(t, decision, row), RefundFor(t, decision, row);
    assert ReturnOk(t, decision.request) && ReturnOk(b, decision.request);
    if b.requests[decision.request].refund.Some? {
      assert RefundOk(b, b.requests[decision.request].refund.value);
    }
  }
}
