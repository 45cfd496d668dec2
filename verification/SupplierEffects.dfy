/**
 What each supplier call makes of the tables when it runs undisturbed, and what it then answers, as functions of
 the tables; and what those effects mean for the caller, above all when `idempotent` or `skipped` is not success.
 */
module SupplierEffects {
  import opened Options
  import opened SupplierRules
  import opened SupplierTables
  import opened SupplierMachine
  import opened SupplierInvariant
  import opened SupplierTheorems
  import R = ReturnRules

  // ---------- One move of a fulfilment ----------

  /** `clash`: another unique column of the purchase or shipment row is taken. */
  function Called(t: Tables, move: Move, clash: bool): (Tables, MoveAnswer) {
    if move.fulfilment >= |t.fulfilments| then (t, MoveAnswer.Failed(NotFound))
    else
      var row := t.fulfilments[move.fulfilment];
      if move.role == SELLER && row.seller != move.actor then (t, MoveAnswer.Failed(Forbidden))
      else
        var verdict := Verdict(t, move, row);
        if verdict.Some? then (t, verdict.value)
        else if clash || KeyUsed(t.events, KeyOf(move)) then (t, Idempotent)
        else (MovedTables(t, move, row), Moved(row.status, Target(move.action)))
  }

  /** The caller may make the move on this row, and brings what it takes. */
  predicate Permitted(t: Tables, move: Move) {
    && move.fulfilment < |t.fulfilments|
    && var row := t.fulfilments[move.fulfilment];
       && !(move.role == SELLER && row.seller != move.actor)
       && Objection(row.status, Target(move.action), PapersOf(move, row)).None? && Missing(t, move).None?
  }

  predicate AlreadyThere(t: Tables, move: Move) {
    && move.fulfilment < |t.fulfilments|
    && t.fulfilments[move.fulfilment].status == Target(move.action)
    && !(move.role == SELLER && t.fulfilments[move.fulfilment].seller != move.actor)
  }

  /**
   When an undisturbed call moves, when it is answered `idempotent`, and what it leaves. A permitted move whose key
   is used is answered like a repetition, and leaves the row where it was.
   */
  lemma WhenACallIsAbsorbed(t: Tables, move: Move, clash: bool)
    ensures
      var (after, answer) := Called(t, move, clash);
      && (answer.Moved? <==> Permitted(t, move) && !clash && !KeyUsed(t.events, KeyOf(move)))
      && (answer == Idempotent <==>
            || (AlreadyThere(t, move) && KeyUsed(t.events, KeyOf(move)))
            || (Permitted(t, move) && (clash || KeyUsed(t.events, KeyOf(move)))))
      && (!answer.Moved? ==> after == t)
      && (answer.Moved? ==>
            && |after.fulfilments| == |t.fulfilments|
            && after.fulfilments[move.fulfilment].status == Target(move.action)
            && (forall g :: 0 <= g < |t.fulfilments| && g != move.fulfilment ==>
               after.fulfilments[g] == t.fulfilments[g])
            && (forall key :: KeyUsed(after.events, key) <==> KeyUsed(t.events, key) || key == KeyOf(move)))
  {
    if Called(t, move, clash).1.Moved? {
      KeysAfterMove(t, move, t.fulfilments[move.fulfilment]);
    }
  }

  /** The same call made again at once changes nothing and is answered `idempotent`: a double click is safe. */
  lemma RepeatedCallIsIdempotent(t: Tables, move: Move, clash: bool)
    requires Called(t, move, false).1.Moved?
    ensures Called(Called(t, move, false).0, move, clash) == (Called(t, move, false).0, Idempotent)
  {
    WhenACallIsAbsorbed(t, move, false);
    WhenACallIsAbsorbed(Called(t, move, false).0, move, clash);
  }

  lemma KeysAfterMove(t: Tables, move: Move, row: Fulfilment)
    requires move.fulfilment < |t.fulfilments|
    ensures forall key :: KeyUsed(MovedTables(t, move, row).events, key) <==>
              KeyUsed(t.events, key) || key == KeyOf(move)
  {
    var b := MovedTables(t, move, row);
    assert b.events[|t.events|] == MoveEvent(move, row);
    forall key | KeyUsed(t.events, key)
      ensures KeyUsed(b.events, key)
    {
      var i :| 0 <= i < |t.events| && t.events[i].key == key;
      assert b.events[i].key == key;
    }
  }

  // ---------- Built keys name the action and not the occasion ----------

  /** An administrator's call with nothing but the action, its cost and its key. */
  function Plain(f: nat, action: Action, cost: int, key: Option<EventKey>): Move {
    Move(f, action, ADMIN, 0, Some(cost), "", "", "", "reason", key)
  }

  /** A waiting task is confirmed, fails and is reopened, all with built keys. */
  function Reopened(t: Tables, f: nat, cost: int): Tables {
    var confirmed := Called(t, Plain(f, CONFIRM_AVAILABILITY, cost, None), false).0;
    var failed := Called(confirmed, Plain(f, REPORT_FAILURE, 0, None), false).0;
    Called(failed, Plain(f, RETRY, 0, None), false).0
  }

  predicate NeverTouched(t: Tables, f: nat) {
    && f < |t.fulfilments| && t.fulfilments[f].status == AWAITING_SUPPLIER_CONFIRMATION && f !in t.purchases
    && !KeyUsed(t.events, MoveKey(f, CONFIRM_AVAILABILITY)) && !KeyUsed(t.events, MoveKey(f, REPORT_FAILURE))
    && !KeyUsed(t.events, MoveKey(f, RETRY))
  }

  lemma ReopenedIsWaiting(t: Tables, f: nat, cost: int)
    requires NeverTouched(t, f)
    ensures
      var b := Reopened(t, f, cost);
      && f < |b.fulfilments| && SameTask(t.fulfilments[f], b.fulfilments[f])
      && b.fulfilments[f].status == AWAITING_SUPPLIER_CONFIRMATION
      && f in b.purchases && b.purchases[f].amount == t.fulfilments[f].quantity * cost + t.fulfilments[f].deliveryCharge
      && forall key :: KeyUsed(b.events, key) <==>
           || KeyUsed(t.events, key)
           || key == MoveKey(f, CONFIRM_AVAILABILITY) || key == MoveKey(f, REPORT_FAILURE) || key == MoveKey(f, RETRY)
  {
    hide MovedShipments;
    var confirm := Plain(f, CONFIRM_AVAILABILITY, cost, None);
    var fail, retry := Plain(f, REPORT_FAILURE, 0, None), Plain(f, RETRY, 0, None);
    var t1 := MovedTables(t, confirm, t.fulfilments[f]);
    assert Called(t, confirm, false) == (t1, Moved(AWAITING_SUPPLIER_CONFIRMATION, CONFIRMED));
    KeysAfterMove(t, confirm, t.fulfilments[f]);
    var t2 := MovedTables(t1, fail, t1.fulfilments[f]);
    assert Called(t1, fail, false) == (t2, Moved(CONFIRMED, Status.FAILED));
    KeysAfterMove(t1, fail, t1.fulfilments[f]);
    var t3 := MovedTables(t2, retry, t2.fulfilments[f]);
    assert Called(t2, retry, false) == (t3, Moved(Status.FAILED, AWAITING_SUPPLIER_CONFIRMATION));
    KeysAfterMove(t2, retry, t2.fulfilments[f]);
  }

  /**
   A task that is confirmed, fails and is reopened can never be confirmed again with built keys: the second
   confirmation is permitted, is answered `idempotent`, and leaves the task waiting. With a key of its own it goes
   through, but the purchase keeps its first price.
   */
  lemma SecondConfirmationIsAbsorbed(t: Tables, f: nat, first: int, second: int, own: EventKey)
    requires NeverTouched(t, f) && own.ChosenKey? && !KeyUsed(t.events, own)
    ensures
      var reopened, line := Reopened(t, f, first), t.fulfilments[f];
      var again := Called(reopened, Plain(f, CONFIRM_AVAILABILITY, second, None), false);
      var withKey := Called(reopened, Plain(f, CONFIRM_AVAILABILITY, second, Some(own)), false);
      && Permitted(reopened, Plain(f, CONFIRM_AVAILABILITY, second, None))
      && again == (reopened, Idempotent)
      && again.0.fulfilments[f].status == AWAITING_SUPPLIER_CONFIRMATION
      && withKey.1 == Moved(AWAITING_SUPPLIER_CONFIRMATION, CONFIRMED)
      && withKey.0.fulfilments[f].totalCost == second * line.quantity + line.deliveryCharge
      && withKey.0.purchases[f].amount == line.quantity * first + line.deliveryCharge
  {
    ReopenedIsWaiting(t, f, first);
    var reopened := Reopened(t, f, first);
    WhenACallIsAbsorbed(reopened, Plain(f, CONFIRM_AVAILABILITY, second, None), false);
    WhenACallIsAbsorbed(reopened, Plain(f, CONFIRM_AVAILABILITY, second, Some(own)), false);
  }

  // ---------- One supplier line of a paid order ----------

  datatype Fault = NoFault | CreateFails | LogFails

  datatype LineResult = Made | Present | Problem

  datatype Tally = Tally(created: nat, skipped: nat, exceptions: nat)

  /** The reference a line's task would carry. */
  function LineReference(t: Tables, item: nat, position: nat): Reference
    requires item < |t.items| && t.items[item].order < |t.orders|
  {
    Reference(t.orders[t.items[item].order].number, position)
  }

  function ProvidedBy(t: Tables, item: nat, position: nat, catalog: nat -> Option<SupplierProduct>,
                      fault: Fault): (Tables, LineResult)
    requires item < |t.items| && t.items[item].order < |t.orders|
  {
    var source := t.items[item].supplierProduct;
    if source.None? then (t, Problem)
    else if HasTask(t, item) then (t, Present)
    else if catalog(source.value).None? || fault == CreateFails then (t, Problem)
    else if ReferenceTaken(t, LineReference(t, item, position)) then (t, Present)
    else
      var created := t.(fulfilments := t.fulfilments + [NewTask(t, item, position, catalog(source.value).value)]);
      if fault == LogFails then (created, Problem)
      else if KeyUsed(t.events, PaymentKey(item)) then (created, Present)
      else (created.(events := t.events + [CreationEvent(|t.fulfilments|, item)]), Made)
  }

  /** The line has no source or its product is gone: nobody can make a task of it. */
  predicate Unsourced(t: Tables, item: nat, catalog: nat -> Option<SupplierProduct>)
    requires item < |t.items|
  {
    t.items[item].supplierProduct.None? || catalog(t.items[item].supplierProduct.value).None?
  }

  /** Order numbers are unique, so a line's reference can be taken only within its own order. */
  lemma ReferenceIsTakenWithinTheOrder(t: Tables, item: nat, position: nat)
    requires TasksOk(t) && item < |t.items| && !HasTask(t, item)
    ensures ReferenceTaken(t, LineReference(t, item, position)) <==> HeldByAnother(t, item, position)
  {
    if HeldByAnother(t, item, position) {
      var f :| 0 <= f < |t.fulfilments| && t.fulfilments[f].item != item
        && t.fulfilments[f].order == t.items[item].order && t.fulfilments[f].reference.position == position;
      assert TaskOk(t, t.fulfilments[f]) && t.fulfilments[f].reference == LineReference(t, item, position);
    }
    if ReferenceTaken(t, LineReference(t, item, position)) {
      var f :| 0 <= f < |t.fulfilments| && t.fulfilments[f].reference == LineReference(t, item, position);
      assert TaskOk(t, t.fulfilments[f]) && t.fulfilments[f].item != item;
    }
  }

  /**
   A line ends with its task exactly when it had one, or it has a source, its insert works and its position is free.
   */
  lemma WhenALineGetsItsTask(t: Tables, item: nat, position: nat, catalog: nat -> Option<SupplierProduct>, fault: Fault)
    requires TasksOk(t) && item < |t.items|
    ensures
      var (after, result) := ProvidedBy(t, item, position, catalog, fault);
      var free := !Unsourced(t, item, catalog) && fault != CreateFails && !HeldByAnother(t, item, position);
      && (HasTask(after, item) <==> HasTask(t, item) || free)
      && (result == Made <==> !HasTask(t, item) && free && fault != LogFails && !KeyUsed(t.events, PaymentKey(item)))
      && (result == Problem ==> Unsourced(t, item, catalog) || fault != NoFault)
      && (result != Problem && !HasTask(after, item) ==> HeldByAnother(t, item, position))
  {
    if !HasTask(t, item) {
      ReferenceIsTakenWithinTheOrder(t, item, position);
      var (after, result) := ProvidedBy(t, item, position, catalog, fault);
      if |after.fulfilments| > |t.fulfilments| {
        assert after.fulfilments[|t.fulfilments|].item == item;
      } else {
        assert after == t;
      }
    } else {
      var f :| 0 <= f < |t.fulfilments| && t.fulfilments[f].item == item;
    }
  }

  /** With a single line in its order, a line's position is never held by another. */
  lemma SingleLinesKeepTheirPosition(t: Tables, item: nat, position: nat)
    requires TasksOk(t) && item < |t.items|
    requires forall i :: 0 <= i < |t.items| && t.items[i].order == t.items[item].order ==> i == item
    ensures !HeldByAnother(t, item, position)
  {
    forall f | 0 <= f < |t.fulfilments| && t.fulfilments[f].order == t.items[item].order
      ensures t.fulfilments[f].item == item
    {
      assert TaskOk(t, t.fulfilments[f]);
    }
  }

  /** A task is created without its first log line, and counted as skipped, exactly when its creation key is used. */
  lemma WhenATaskLacksItsFirstLine(t: Tables, item: nat, position: nat, catalog: nat -> Option<SupplierProduct>)
    requires TasksOk(t) && item < |t.items| && !HasTask(t, item)
             && HasTask(ProvidedBy(t, item, position, catalog, NoFault).0, item)
    ensures
      var (after, result) := ProvidedBy(t, item, position, catalog, NoFault);
      && (result == Present <==> KeyUsed(t.events, PaymentKey(item)))
      && (result == Present <==> after.events == t.events)
  {
  }

  // ---------- All supplier lines of a paid order ----------

  function Plus(tally: Tally, result: LineResult): Tally {
    match result
    case Made => tally.(created := tally.created + 1)
    case Present => tally.(skipped := tally.skipped + 1)
    case Problem => tally.(exceptions := tally.exceptions + 1)
  }

  predicate ListingOf(t: Tables, o: nat, listing: seq<nat>) {
    && o < |t.orders|
    && forall i :: 0 <= i < |listing| ==> listing[i] < |t.items| && t.items[listing[i]].order == o
  }

  /** The lines in turn, numbered from one. */
  function EnsuredBy(t: Tables, o: nat, lines: seq<nat>, catalog: nat -> Option<SupplierProduct>,
                     faults: nat -> Fault): (r: (Tables, Tally))
    requires ListingOf(t, o, lines)
    ensures r.0.items == t.items && r.0.orders == t.orders
    decreases |lines|
  {
    if lines == [] then (t, Tally(0, 0, 0))
    else
      var last := |lines| - 1;
      var (before, tally) := EnsuredBy(t, o, lines[..last], catalog, faults);
      var (after, result) := ProvidedBy(before, lines[last], last + 1, catalog, faults(last));
      (after, Plus(tally, result))
  }

  predicate Distinct(lines: seq<nat>) {
    forall i, j :: 0 <= i < j < |lines| ==> lines[i] != lines[j]
  }

  /** Creating the task of another line, at another position, makes no difference to a line. */
  lemma OtherLinesMakeNoDifference(t: Tables, item: nat, position: nat, catalog: nat -> Option<SupplierProduct>,
                                   fault: Fault, other: nat, place: nat)
    requires item < |t.items| && t.items[item].order < |t.orders| && other < |t.items| && other != item
             && place != position
    ensures
      var after := ProvidedBy(t, item, position, catalog, fault).0;
      && (HasTask(after, other) <==> HasTask(t, other))
      && (HeldByAnother(after, other, place) <==> HeldByAnother(t, other, place))
  {
    var after := ProvidedBy(t, item, position, catalog, fault).0;
    assert forall f :: 0 <= f < |t.fulfilments| ==> after.fulfilments[f] == t.fulfilments[f];
  }

  lemma ProvidingKeepsTasksOk(t: Tables, item: nat, position: nat, catalog: nat -> Option<SupplierProduct>,
                              fault: Fault)
    requires TasksOk(t) && item < |t.items|
    ensures TasksOk(ProvidedBy(t, item, position, catalog, fault).0)
  {
    var after := ProvidedBy(t, item, position, catalog, fault).0;
    if |after.fulfilments| > |t.fulfilments| {
      AddedTaskIsOk(t, item, position, catalog(t.items[item].supplierProduct.value).value);
    }
  }

  lemma {:induction false} EnsuringKeepsTasksOk(t: Tables, o: nat, lines: seq<nat>,
                                                catalog: nat -> Option<SupplierProduct>, faults: nat -> Fault)
    requires TasksOk(t) && ListingOf(t, o, lines)
    ensures TasksOk(EnsuredBy(t, o, lines, catalog, faults).0)
    decreases |lines|
  {
    if lines != [] {
      var last := |lines| - 1;
      EnsuringKeepsTasksOk(t, o, lines[..last], catalog, faults);
      var before := EnsuredBy(t, o, lines[..last], catalog, faults).0;
      ProvidingKeepsTasksOk(before, lines[last], last + 1, catalog, faults(last));
    }
  }

  /** A run makes no difference to a line outside it, nor to a position beyond its length. */
  lemma {:induction false} RunsLeaveOtherLines(t: Tables, o: nat, lines: seq<nat>,
                                               catalog: nat -> Option<SupplierProduct>,
                                               faults: nat -> Fault, item: nat, place: nat)
    requires TasksOk(t) && ListingOf(t, o, lines) && item < |t.items| && item !in lines && place > |lines|
    ensures
      var after := EnsuredBy(t, o, lines, catalog, faults).0;
      && (HasTask(after, item) <==> HasTask(t, item))
      && (HeldByAnother(after, item, place) <==> HeldByAnother(t, item, place))
    decreases |lines|
  {
    if lines != [] {
      var last := |lines| - 1;
      RunsLeaveOtherLines(t, o, lines[..last], catalog, faults, item, place);
      EnsuringKeepsTasksOk(t, o, lines[..last], catalog, faults);
      var before := EnsuredBy(t, o, lines[..last], catalog, faults).0;
      OtherLinesMakeNoDifference(before, lines[last], last + 1, catalog, faults(last), item, place);
    }
  }

  /**
   After an undisturbed run over the lines of an order, a line has its task exactly when it had one before, or it
   has a source, its insert works, and no other line of its order held its number when the run began.
   */
  lemma {:induction false} WhenLinesGetTheirTasks(t: Tables, o: nat, lines: seq<nat>,
                                                  catalog: nat -> Option<SupplierProduct>,
                                                  faults: nat -> Fault, p: nat)
    requires TasksOk(t) && ListingOf(t, o, lines) && Distinct(lines) && p < |lines|
    ensures HasTask(EnsuredBy(t, o, lines, catalog, faults).0, lines[p])
            <==> || HasTask(t, lines[p])
                 || (!Unsourced(t, lines[p], catalog) && faults(p) != CreateFails && !HeldByAnother(t, lines[p], p + 1))
    decreases |lines|
  {
    hide HasTask, HeldByAnother, ProvidedBy, TasksOk;
    var last := |lines| - 1;
    var earlier := lines[..last];
    var before := EnsuredBy(t, o, earlier, catalog, faults).0;
    EnsuringKeepsTasksOk(t, o, earlier, catalog, faults);
    if p < last {
      WhenLinesGetTheirTasks(t, o, earlier, catalog, faults, p);
      OtherLinesMakeNoDifference(before, lines[last], last + 1, catalog, faults(last), lines[p], p + 1);
    } else {
      RunsLeaveOtherLines(t, o, earlier, catalog, faults, lines[last], last + 1);
      WhenALineGetsItsTask(before, lines[last], last + 1, catalog, faults(last));
    }
  }

  // ---------- Lines that are skipped without success ----------

  /** An order with two supplier lines; the second gets its task as number two, the first did not get one. */
  function SecondLineOnly(order: Order, a: Line, b: Line, product: SupplierProduct): seq<Step> {
    [] + [SCheckout(order, [a, b])] + [SCreateTask(0, 1, 2, product)] + [SLogTask(0)]
  }

  lemma SecondLineReached(order: Order, a: Line, b: Line, product: SupplierProduct)
    ensures
      var s := Reached(SecondLineOnly(order, a, b, product));
      && s.t.orders == [order] && s.t.items == Items(0, [a, b]) && AtRest(s, 0)
      && |s.t.fulfilments| == 1 && s.t.fulfilments[0].item == 1 && s.t.fulfilments[0].order == 0
      && s.t.fulfilments[0].reference.position == 2
      && s.t.fulfilments[0].status == AWAITING_SUPPLIER_CONFIRMATION
      && s.t.events == [CreationEvent(0, 1)] && s.t.purchases == map[] && NeverTouched(s.t, 0)
  {
    var placed := [] + [SCheckout(order, [a, b])];
    var created := placed + [SCreateTask(0, 1, 2, product)];
    RunExtends([], SCheckout(order, [a, b]));
    RunExtends(placed, SCreateTask(0, 1, 2, product));
    RunExtends(created, SLogTask(0));
  }

  /** Read in the other order on the next run, the first line is number two, and is skipped without a task. */
  lemma ARenumberedLineIsSkipped(order: Order, a: Line, b: Line, product: SupplierProduct,
                                 catalog: nat -> Option<SupplierProduct>)
    requires a.supplierProduct.Some? && catalog(a.supplierProduct.value).Some?
    ensures
      var t := Reached(SecondLineOnly(order, a, b, product)).t;
      && |t.items| == 2 && t.items[0].order < |t.orders| && !HasTask(t, 0) && HeldByAnother(t, 0, 2)
      && ProvidedBy(t, 0, 2, catalog, NoFault) == (t, Present)
  {
    var t := Reached(SecondLineOnly(order, a, b, product)).t;
    SecondLineReached(order, a, b, product);
    ReachedInv(SecondLineOnly(order, a, b, product));
    assert t.fulfilments[0].item != 0;
    ReferenceIsTakenWithinTheOrder(t, 0, 2);
  }

  /** An undisturbed call's result is one the machine reaches. */
  lemma UndisturbedCallIsReached(steps: seq<Step>, c: ClientId, move: Move, clash: bool)
    requires AtRest(Reached(steps), c)
    ensures Reached(steps + [SLoadMove(c, move)] + [SPrepareMove(c)] + [SFinishMove(c, clash)]).t
            == Called(Reached(steps).t, move, clash).0
  {
    hide Run;
    hide LoadMove, PrepareMove, FinishMove, Called;
    var loaded := steps + [SLoadMove(c, move)];
    var prepared := loaded + [SPrepareMove(c)];
    RunExtends(steps, SLoadMove(c, move));
    RunExtends(loaded, SPrepareMove(c));
    RunExtends(prepared, SFinishMove(c, clash));
    UndisturbedCall(Reached(steps), c, move, clash);
  }

  /** A caller may send any key, also one that a later creation will build: that task then lacks its first line. */
  lemma ATakenCreationKeyHidesTheFirstLine(order: Order, a: Line, b: Line, product: SupplierProduct,
                                           catalog: nat -> Option<SupplierProduct>)
    requires a.supplierProduct.Some? && catalog(a.supplierProduct.value).Some?
    ensures
      var report := Plain(0, REPORT_FAILURE, 0, Some(PaymentKey(0)));
      var steps := SecondLineOnly(order, a, b, product) + [SLoadMove(0, report)] + [SPrepareMove(0)]
        + [SFinishMove(0, false)];
      var taken := Reached(steps).t;
      && |taken.items| == 2 && taken.items[0].order < |taken.orders|
      && var (after, result) := ProvidedBy(taken, 0, 1, catalog, NoFault);
         && result == Present && HasTask(after, 0) && !HasTask(taken, 0) && after.events == taken.events
  {
    var t := Reached(SecondLineOnly(order, a, b, product)).t;
    var report := Plain(0, REPORT_FAILURE, 0, Some(PaymentKey(0)));
    SecondLineReached(order, a, b, product);
    UndisturbedCallIsReached(SecondLineOnly(order, a, b, product), 0, report, false);
    WhenACallIsAbsorbed(t, report, false);
    assert t.events[0].key != PaymentKey(0);
    var taken := Called(t, report, false).0;
    var after := ProvidedBy(taken, 0, 1, catalog, NoFault).0;
    assert taken.fulfilments[0].item == 1;
    assert after.fulfilments[1].item == 0;
  }

  /** What an undisturbed call leaves is what its three steps lead to, so it is a state the machine reaches. */
  lemma UndisturbedCall(s: State, c: ClientId, move: Move, clash: bool)
    requires AtRest(s, c)
    ensures FinishMove(PrepareMove(LoadMove(s, c, move), c), c, clash)
            == Go(s.(t := Called(s.t, move, clash).0), c, AnsweredMove(Called(s.t, move, clash).1))
  {
    var loaded := LoadMove(s, c, move);
    var prepared := PrepareMove(loaded, c);
    var answer := AnsweredMove(Called(s.t, move, clash).1);
    assert loaded.clients == s.clients[c := At(loaded, c)];
    assert prepared.clients == s.clients[c := At(prepared, c)];
    if At(prepared, c).Prepared? {
      assert FinishMove(prepared, c, clash).clients == s.clients[c := answer];
    }
  }

  // ---------- Returns ----------

  function FiledBy(t: Tables, filing: Filing, clash: bool): (Tables, ReturnAnswer) {
    var stopped := FilingVerdict(t, filing);
    if stopped.Some? then (t, stopped.value)
    else if clash then (t, ReturnFailed(Duplicate))
    else
      var row := t.fulfilments[filing.fulfilment];
      (t.(requests := t.requests + [NewReturn(filing, row)], cases := OpenedCase(t.cases, row.order)),
        Filed(|t.requests|))
  }

  /** A return is filed exactly for a returnable fulfilment of the buyer that has none yet, under a new key. */
  lemma WhenAReturnIsFiled(t: Tables, filing: Filing, clash: bool)
    ensures
      var (after, answer) := FiledBy(t, filing, clash);
      && (answer.Filed? <==>
            && !ReturnKeyUsed(t, FilingKey(filing)) && !HasReturn(t, filing.fulfilment) && !clash
            && filing.fulfilment < |t.fulfilments| && t.fulfilments[filing.fulfilment].buyer == filing.buyer
            && Returnable(t.fulfilments[filing.fulfilment].status))
      && (answer.AlreadyFiled? <==> ReturnKeyUsed(t, FilingKey(filing)))
      && (!answer.Filed? ==> after == t)
      && (answer.Filed? ==> HasReturn(after, filing.fulfilment) && |after.requests| == |t.requests| + 1)
  {
    var (after, answer) := FiledBy(t, filing, clash);
    if answer.Filed? {
      assert after.requests[|t.requests|].fulfilment == filing.fulfilment;
    }
  }

  /** The fulfilment has a return, filed under this very key. */
  predicate FiledBefore(t: Tables, filing: Filing) {
    exists r :: 0 <= r < |t.requests|
      && t.requests[r].fulfilment == filing.fulfilment && t.requests[r].key == FilingKey(filing)
  }

  /**
   `already filed` names the one return under the key, which is the caller's choice. So it is about the caller's own
   fulfilment exactly when that is what the key was used for; otherwise it is somebody else's return.
   */
  lemma WhoseReturnIsAnswered(t: Tables, filing: Filing, clash: bool)
    requires DataOk(t) && FiledBy(t, filing, clash).1.AlreadyFiled?
    ensures
      var request := FiledBy(t, filing, clash).1.request;
      && request < |t.requests| && t.requests[request].key == FilingKey(filing)
      && (forall r :: 0 <= r < |t.requests| && t.requests[r].key == FilingKey(filing) ==> r == request)
      && (t.requests[request].fulfilment == filing.fulfilment <==> FiledBefore(t, filing))
  {
  }

  /** Two orders with a task each; the first buyer's return is filed under the key `text`. */
  function FirstReturn(a: Order, b: Order, line: Line, product: SupplierProduct, text: string): seq<Step> {
    var filing := Filing(0, a.buyer, Some(ChosenReturnKey(text)));
    TwoTasks(a, b, line, product) + [SLoadFiling(2, filing)] + [SFileReturn(2, false)]
  }

  function TwoOrders(a: Order, b: Order, line: Line): seq<Step> {
    [] + [SCheckout(a, [line])] + [SCheckout(b, [line])]
  }

  function TwoTasks(a: Order, b: Order, line: Line, product: SupplierProduct): seq<Step> {
    TwoOrders(a, b, line) + [SCreateTask(0, 0, 1, product)] + [SCreateTask(1, 1, 1, product)]
  }

  lemma TwoOrdersReached(a: Order, b: Order, line: Line)
    requires a.number != b.number
    ensures
      var s := Reached(TwoOrders(a, b, line));
      && s.t.orders == [a, b] && |s.t.items| == 2 && s.t.items[0].order == 0 && s.t.items[1].order == 1
      && s.t.fulfilments == [] && s.t.requests == [] && s.clients == map[]
  {
    RunExtends([], SCheckout(a, [line]));
    RunExtends([] + [SCheckout(a, [line])], SCheckout(b, [line]));
  }

  lemma TwoTasksReached(a: Order, b: Order, line: Line, product: SupplierProduct)
    requires a.number != b.number
    ensures
      var s := Reached(TwoTasks(a, b, line, product));
      && |s.t.fulfilments| == 2 && AtRest(s, 2) && s.t.requests == []
      && s.t.fulfilments[0].buyer == a.buyer && s.t.fulfilments[1].buyer == b.buyer
      && s.t.fulfilments[0].status == s.t.fulfilments[1].status == AWAITING_SUPPLIER_CONFIRMATION
  {
    hide Run;
    var orders := TwoOrders(a, b, line);
    TwoOrdersReached(a, b, line);
    RunExtends(orders, SCreateTask(0, 0, 1, product));
    RunExtends(orders + [SCreateTask(0, 0, 1, product)], SCreateTask(1, 1, 1, product));
  }

  /** It does happen: the second buyer, using the same key, is told of the first one's return and has none. */
  lemma AnotherBuyersReturnIsAnswered(a: Order, b: Order, line: Line, product: SupplierProduct, text: string,
                                      clash: bool)
    requires a.number != b.number
    ensures
      var t := Reached(FirstReturn(a, b, line, product, text)).t;
      var filing := Filing(1, b.buyer, Some(ChosenReturnKey(text)));
      && FiledBy(t, filing, clash) == (t, AlreadyFiled(0))
      && |t.requests| == 1 && t.requests[0].fulfilment == 0 && t.requests[0].buyer == a.buyer && !HasReturn(t, 1)
  {
    var tasks := TwoTasks(a, b, line, product);
    var filing := Filing(0, a.buyer, Some(ChosenReturnKey(text)));
    TwoTasksReached(a, b, line, product);
    RunExtends(tasks, SLoadFiling(2, filing));
    RunExtends(tasks + [SLoadFiling(2, filing)], SFileReturn(2, false));
    UndisturbedFiling(Reached(tasks), 2, filing, false);
    var t := Reached(FirstReturn(a, b, line, product, text)).t;
    assert t.requests[0].key == ChosenReturnKey(text) && ReturnKeyUsed(t, ChosenReturnKey(text));
  }

  function DecidedBy(t: Tables, decision: Decision, clash: bool): (Tables, ReturnAnswer) {
    if decision.request >= |t.requests| then (t, ReturnFailed(ReturnNotFound))
    else
      var row := t.requests[decision.request];
      var error := Ruling(t, decision, row, RefundSeen(t, row), clash);
      if error.Some? then (t, ReturnFailed(error.value))
      else (DecidedTables(t, decision, row), Decided(row.status, decision.status, RefundFor(t, decision, row)))
  }

  /** A decision is made exactly along the table, with a note to resolve, and with the money there when it must be. */
  lemma WhenADecisionIsMade(t: Tables, decision: Decision, clash: bool)
    requires DataOk(t) && decision.request < |t.requests|
    ensures
      var (after, answer) := DecidedBy(t, decision, clash);
      var row := t.requests[decision.request];
      && (answer.Decided? <==>
            && !clash && decision.status in R.Transitions(row.status) && decision.status != row.status
            && (decision.status == R.RESOLVED ==> decision.note)
            && (decision.status == R.REFUND_PENDING ==> row.order in t.settled)
            && (row.status == R.REFUND_PENDING && decision.status == R.RESOLVED ==>
                  RefundSeen(t, row) == Some(R.COMPLETED)))
      && (!answer.Decided? ==> after == t)
      && (answer.Decided? && decision.status == R.REFUND_PENDING ==> |after.refunds| == |t.refunds| + 1)
  {
    assert ReturnOk(t, decision.request);
    var raised := RefundOf(t.refunds, decision.request);
    if raised.Some? {
      assert RefundOk(t, raised.value);
    }
  }

  // ---------- The machine's statements, undisturbed ----------

  lemma AnsweredStays(s: State, c: ClientId, clash: bool)
    requires At(s, c).AnsweredMove?
    ensures PrepareMove(s, c) == s && FinishMove(s, c, clash) == s
  {
  }

  lemma AnsweredReturnStays(s: State, c: ClientId, clash: bool)
    requires At(s, c).AnsweredReturn?
    ensures FileReturn(s, c, clash) == s && Decide(s, c, clash) == s
  {
  }

  lemma UndisturbedFiling(s: State, c: ClientId, filing: Filing, clash: bool)
    requires AtRest(s, c)
    ensures FileReturn(LoadFiling(s, c, filing), c, clash)
            == Go(s.(t := FiledBy(s.t, filing, clash).0), c, AnsweredReturn(FiledBy(s.t, filing, clash).1))
  {
    var loaded := LoadFiling(s, c, filing);
    assert loaded.clients == s.clients[c := At(loaded, c)];
    if At(loaded, c).Requesting? {
      var filed := FileReturn(loaded, c, clash);
      assert filed.clients == s.clients[c := At(filed, c)];
    }
  }

  lemma UndisturbedDecision(s: State, c: ClientId, decision: Decision, clash: bool)
    requires AtRest(s, c)
    ensures Decide(LoadDecision(s, c, decision), c, clash)
            == Go(s.(t := DecidedBy(s.t, decision, clash).0), c, AnsweredReturn(DecidedBy(s.t, decision, clash).1))
  {
    var loaded := LoadDecision(s, c, decision);
    assert loaded.clients == s.clients[c := At(loaded, c)];
    if At(loaded, c).Deciding? {
      var decided := Decide(loaded, c, clash);
      assert decided.clients == s.clients[c := At(decided, c)];
    }
  }
}
