/** What becomes of the stock of orders that failed. A reservation that a failed order has not released is
    released by nobody, and a request to reserve that is still under way can store one after the failure. */
module SagaLeaks {
  import opened Wrappers
  import opened Items
  import opened Saga
  import opened SagaInvariant
  import opened SagaSteps
  import opened SagaTheorems
  import opened SagaProgress
  import opened SagaStranded
  import L = Ledger
  import LP = LedgerProof

  // ----- who asks for an order's stock to be settled

  /** No request to confirm or release the stock of `x` has been sent. */
  ghost predicate Unasked(s: State, x: int) { forall i, c | (i, c) in s.sent && c.order == x :: c.ReserveCall? }

  /** A Create that has not begun to undo its reservation. */
  predicate Early(op: Op) { op.CreateOp? && !op.create.AwaitUndo? && !op.create.WriteUndone? }

  /** As long as its Create is early nobody has asked, and if the order failed with a request under way its
      stock has been released. */
  ghost predicate Meant(s: State, x: int)
    requires x in s.orders
  {
    && ((exists i :: i in s.ops && s.ops[i].order == x && Early(s.ops[i])) ==> Unasked(s, x))
    && (s.orders[x].status == Failed ==> Unasked(s, x) || ReservationOf(s, x) == Some(L.Released))
  }

  ghost predicate AllMeant(s: State) { forall x {:trigger Meant(s, x)} | x in s.orders :: Meant(s, x) }

  /** The step of an operation on another order. */
  lemma {:induction false} OtherMeant(s: State, i: nat, op: Op, f: Effect, s': State, x: int)
    requires i in s.ops && s.ops[i] == op && op.order in s.orders && op.order != x && x in s.orders && Meant(s, x)
    requires Shape(s, i, op, f, s') && (f.op.Some? ==> f.op.value.order == op.order)
    requires f.send.Some? ==> f.send.value.order == op.order
    ensures Meant(s', x)
  {
  }

  /** A step that sends nothing, and fails the order only if nobody has asked or its stock is released. */
  lemma {:induction false} SilentMeant(s: State, i: nat, op: Op, f: Effect, s': State)
    requires i in s.ops && s.ops[i] == op && op.order in s.orders && Meant(s, op.order)
    requires Shape(s, i, op, f, s') && f.send == None
    requires f.op.Some? ==> f.op.value.order == op.order && (Early(f.op.value) ==> Early(op))
    requires f.write == Some(Failed) ==> Unasked(s, op.order) || ReservationOf(s, op.order) == Some(L.Released)
    ensures Meant(s', op.order)
  {
  }

  /** A step that sends a request for an order that has not failed and has no early Create then. */
  lemma {:induction false} SentMeant(s: State, i: nat, op: Op, f: Effect, s': State)
    requires op.order in s.orders && Shape(s, i, op, f, s') && s'.orders[op.order].status != Failed
    requires forall j | j in s'.ops && s'.ops[j].order == op.order :: !Early(s'.ops[j])
    ensures Meant(s', op.order)
  {
  }

  /** All orders, once the one the operation works on is seen to. */
  lemma {:induction false} OpMeant(s: State, i: nat, op: Op, f: Effect, s': State)
    requires i in s.ops && s.ops[i] == op && op.order in s.orders && AllMeant(s) && Shape(s, i, op, f, s')
    requires f.op.Some? ==> f.op.value.order == op.order
    requires f.send.Some? ==> f.send.value.order == op.order
    requires op.order in s'.orders && Meant(s', op.order)
    ensures AllMeant(s')
  {
    forall x | x in s'.orders ensures Meant(s', x) {
      if x != op.order {
        assert Meant(s, x);
        OtherMeant(s, i, op, f, s', x);
      }
    }
  }

  lemma {:induction false} CreateMeant(s: State, i: nat, m: CreateMove)
    requires Inv(s) && AllMeant(s) && Enabled(s, OnCreate(i, m))
    ensures AllMeant(Next(s, OnCreate(i, m)))
  {
    var op, s' := s.ops[i], Next(s, OnCreate(i, m));
    var f := CreateEffect(op, m);
    assert OpOk(s, op) && Meant(s, op.order);
    ApplyShape(s, i, op, f);
    if m.PendingAborted? {
      forall j | j in s'.ops && s'.ops[j].order == op.order ensures !Early(s'.ops[j]) {
        if j != i && s.ops[j].CreateOp? { assert Rivals(s, i, j); }
      }
      SentMeant(s, i, op, f, s');
    } else {
      SilentMeant(s, i, op, f, s');
    }
    OpMeant(s, i, op, f, s');
  }

  /** No Create works on an order that has left Reserving. */
  lemma {:induction false} NoCreate(s: State, x: int)
    requires OpsOk(s) && x in s.orders && s.orders[x].status != Reserving
    ensures forall j | j in s.ops && s.ops[j].order == x :: !s.ops[j].CreateOp?
  {
    forall j | j in s.ops && s.ops[j].order == x ensures !s.ops[j].CreateOp? { assert OpOk(s, s.ops[j]); }
  }

  /** What the steps of a Pay, a Cancel or a repair have in common: a request is sent for an order that is
      neither being created nor failed, and an order is failed only if its stock is released. */
  ghost predicate Decent(s: State, op: Op, f: Effect) {
    && !op.CreateOp? && op.order in s.orders && f.adopt == None
    && (f.op.Some? ==> f.op.value.order == op.order && !f.op.value.CreateOp?)
    && (f.send.Some? ==>
          && f.send.value.order == op.order && s.orders[op.order].status !in {Reserving, Failed}
          && (f.write.Some? ==> f.write.value != Failed))
    && (f.write == Some(Failed) ==> ReservationOf(s, op.order) == Some(L.Released))
  }

  lemma {:induction false} DecentMeant(s: State, i: nat, op: Op, f: Effect, s': State)
    requires OpsOk(s) && AllMeant(s) && i in s.ops && s.ops[i] == op && Decent(s, op, f) && Shape(s, i, op, f, s')
    ensures AllMeant(s')
  {
    assert Meant(s, op.order);
    if f.send.Some? {
      NoCreate(s, op.order);
      SentMeant(s, i, op, f, s');
    } else {
      SilentMeant(s, i, op, f, s');
    }
    OpMeant(s, i, op, f, s');
  }

  lemma {:induction false} SettleMeant(s: State, i: nat, m: SettleMove)
    requires Inv(s) && AllMeant(s) && Enabled(s, OnSettle(i, m))
    ensures AllMeant(Next(s, OnSettle(i, m)))
  {
    var op := s.ops[i];
    assert OpOk(s, op);
    ApplyShape(s, i, op, SettleEffect(s, op, m));
    DecentMeant(s, i, op, SettleEffect(s, op, m), Next(s, OnSettle(i, m)));
  }

  lemma {:induction false} RepairIsDecent(s: State, i: nat, op: Op, m: RepairMove)
    requires op.RepairOp? && OpOk(s, op) && RepairEnabled(s, i, op, m)
    ensures Decent(s, op, RepairEffect(s, op, m))
  {
  }

  lemma {:induction false} RepairMeant(s: State, i: nat, m: RepairMove)
    requires Inv(s) && AllMeant(s) && Enabled(s, OnRepair(i, m))
    ensures AllMeant(Next(s, OnRepair(i, m)))
  {
    var op := s.ops[i];
    assert OpOk(s, op);
    RepairIsDecent(s, i, op, m);
    ApplyShape(s, i, op, RepairEffect(s, op, m));
    DecentMeant(s, i, op, RepairEffect(s, op, m), Next(s, OnRepair(i, m)));
  }

  lemma {:induction false} CrashMeant(s: State, i: nat)
    requires Inv(s) && AllMeant(s) && i in s.ops
    ensures AllMeant(Next(s, Crash(i)))
  {
    var op, s' := s.ops[i], Next(s, Crash(i));
    assert OpOk(s, op) && Meant(s, op.order);
    ApplyShape(s, i, op, Ends(None));
    SilentMeant(s, i, op, Ends(None), s');
    OpMeant(s, i, op, Ends(None), s');
  }

  /** Nothing that `Meant` speaks of has changed for `x`, except that stock may have been settled. */
  lemma {:induction false} SameMeant(s: State, s': State, x: int)
    requires x in s.orders && x in s'.orders && Meant(s, x)
    requires s'.orders[x].status == Failed ==> s.orders[x].status == Failed
    requires forall i | i in s'.ops && s'.ops[i].order == x && Early(s'.ops[i]) :: i in s.ops && s.ops[i] == s'.ops[i]
    requires forall i, c | (i, c) in s'.sent && c.order == x :: (i, c) in s.sent
    requires ReservationOf(s, x) == Some(L.Released) ==> ReservationOf(s', x) == Some(L.Released)
    ensures Meant(s', x)
  {
  }

  lemma {:induction false} OthersMeant(s: State, e: Event, x: int)
    requires Inv(s) && x in s.orders && Meant(s, x) && Enabled(s, e) && Actor(e) == None
    ensures x in Next(s, e).orders && Meant(Next(s, e), x)
  {
    assert OrderOk(s, x);
    if ReservationOf(s, x) == Some(L.Released) { SettledStays(s, e, x); }
    StepMovesOrder(s, e, x);
    OthersAddNothing(s, e, x);
    SameMeant(s, Next(s, e), x);
  }

  lemma {:induction false} OthersAddNothing(s: State, e: Event, x: int)
    requires Enabled(s, e) && Actor(e) == None && x in s.orders && x != s.nextOrder
    ensures var s' := Next(s, e);
      && x in s'.orders && (s'.orders[x].status == Failed ==> s.orders[x].status == Failed)
      && (forall i | i in s'.ops && s'.ops[i].order == x && Early(s'.ops[i]) :: i in s.ops && s.ops[i] == s'.ops[i])
      && (forall i, c | (i, c) in s'.sent && c.order == x :: (i, c) in s.sent)
  {
  }

  /** A new order has only been asked to be reserved. */
  lemma {:induction false} NewMeant(s: State, e: Event)
    requires Inv(s) && Enabled(s, e) && e.Insert?
    ensures s.nextOrder in Next(s, e).orders && Meant(Next(s, e), s.nextOrder)
  {
    var s', x := Next(s, e), s.nextOrder;
    forall i, c | (i, c) in s.sent ensures c.order != x {
      assert CallOk(s, c);
      assert OrderOk(s, c.order);
    }
    NothingAsked(s, s', x, e);
  }

  lemma {:induction false} NothingAsked(s: State, s': State, x: int, e: Event)
    requires Enabled(s, e) && e.Insert? && s' == Next(s, e) && x == s.nextOrder
    requires forall i, c | (i, c) in s.sent :: c.order != x
    ensures Meant(s', x)
  {
  }

  lemma {:induction false} NoActorMeant(s: State, e: Event)
    requires Inv(s) && AllMeant(s) && Enabled(s, e) && Actor(e) == None
    ensures AllMeant(Next(s, e))
  {
    var s' := Next(s, e);
    forall x | x in s'.orders ensures Meant(s', x) {
      if x in s.orders {
        assert Meant(s, x);
        OthersMeant(s, e, x);
      } else {
        NewMeant(s, e);
      }
    }
  }

  lemma {:induction false} StepMeant(s: State, e: Event)
    requires Inv(s) && AllMeant(s) && Enabled(s, e)
    ensures AllMeant(Next(s, e))
  {
    match e
    case OnCreate(i, m) => CreateMeant(s, i, m);
    case OnSettle(i, m) => SettleMeant(s, i, m);
    case OnRepair(i, m) => RepairMeant(s, i, m);
    case Crash(i) => CrashMeant(s, i);
    case _ => NoActorMeant(s, e);
  }

  lemma {:induction false} RunMeant(s: State, es: seq<Event>)
    requires Inv(s) && AllMeant(s) && Runs(s, es)
    ensures AllMeant(Run(s, es))
    decreases |es|
  {
    if es != [] {
      StepMeant(s, es[0]);
      StepInv(s, es[0]);
      RunMeant(Next(s, es[0]), es[1..]);
    }
  }

  /** Nobody ever asks for the stock of a failed order that is still held. */
  lemma {:induction false} HeldIsUnasked(s: State, x: int)
    requires Reachable(s) && StatusOf(s, x) == Some(Failed) && ReservationOf(s, x) != Some(L.Released)
    ensures Unasked(s, x)
  {
    var es :| Runs(START, es) && Run(START, es) == s;
    StartInv();
    RunMeant(START, es);
    assert Meant(s, x);
  }

  // ----- held for ever

  ghost predicate Leaked(s: State, x: int) {
    StatusOf(s, x) == Some(Failed) && ReservationOf(s, x) == Some(L.Held) && Unasked(s, x)
  }

  /** Nobody sends a request about a failed order. */
  lemma {:induction false} NothingMoreSent(s: State, e: Event, x: int)
    requires Inv(s) && Enabled(s, e) && StatusOf(s, x) == Some(Failed)
    ensures forall i, c | (i, c) in Next(s, e).sent && c.order == x :: (i, c) in s.sent
  {
    assert OrderOk(s, x);
    if Actor(e).Some? {
      var i := Actor(e).value;
      assert OpOk(s, s.ops[i]);
      OpSendsNothing(s, e, i, x);
    } else {
      OthersAddNothing(s, e, x);
    }
  }

  lemma {:induction false} EffectSendsNothing(s: State, i: nat, op: Op, f: Effect, x: int)
    requires StatusOf(s, x) == Some(Failed) && op.order in s.orders
    requires f.send.Some? ==> f.send.value.order == op.order && s.orders[op.order].status != Failed
    ensures forall j, c | (j, c) in Apply(s, i, op, f).sent && c.order == x :: (j, c) in s.sent
  {
  }

  lemma {:induction false} OpSendsNothing(s: State, e: Event, i: nat, x: int)
    requires Enabled(s, e) && Actor(e) == Some(i) && OpOk(s, s.ops[i]) && StatusOf(s, x) == Some(Failed)
    ensures forall j, c | (j, c) in Next(s, e).sent && c.order == x :: (j, c) in s.sent
  {
    var op := s.ops[i];
    match e
    case OnCreate(_, m) => EffectSendsNothing(s, i, op, CreateEffect(op, m), x);
    case OnSettle(_, m) => EffectSendsNothing(s, i, op, SettleEffect(s, op, m), x);
    case OnRepair(_, m) =>
      RepairIsDecent(s, i, op, m);
      EffectSendsNothing(s, i, op, RepairEffect(s, op, m), x);
    case Crash(_) => EffectSendsNothing(s, i, op, Ends(None), x);
  }

  /** Stock nobody has asked for is not settled. */
  lemma {:induction false} UnaskedStaysHeld(s: State, e: Event, x: int)
    requires Inv(s) && Enabled(s, e) && x in s.orders && ReservationOf(s, x) == Some(L.Held) && Unasked(s, x)
    ensures ReservationOf(Next(s, e), x) == Some(L.Held)
  {
    StepMovesOrder(s, e, x);
    if e.Deliver? {
      assert CallOk(s, e.call);
      assert OrderOk(s, e.call.order);
      ServeShape(s, e.call);
      DeliveredHeld(s, e, x);
    } else {
      OnlyDeliveriesMoveStock(s, e);
    }
  }

  lemma {:induction false} DeliveredHeld(s: State, e: Event, x: int)
    requires e.Deliver? && Enabled(s, e) && CallOk(s, e.call) && Apart(s) && x in s.orders
    requires ReservationOf(s, x) == Some(L.Held) && Unasked(s, x)
    requires Served(s.inventory.reservations, e.call, Next(s, e).inventory.reservations)
    ensures ReservationOf(Next(s, e), x) == Some(L.Held)
  {
  }

  lemma {:induction false} LeakedStep(s: State, e: Event, x: int)
    requires Inv(s) && Enabled(s, e) && Leaked(s, x)
    ensures Leaked(Next(s, e), x)
  {
    StepMovesOrder(s, e, x);
    UnaskedStaysHeld(s, e, x);
    NothingMoreSent(s, e, x);
  }

  lemma {:induction false} LeakedForEver(s: State, es: seq<Event>, x: int)
    requires Inv(s) && Runs(s, es) && Leaked(s, x)
    ensures Leaked(Run(s, es), x)
    decreases |es|
  {
    if es != [] {
      LeakedStep(s, es[0], x);
      StepInv(s, es[0]);
      LeakedForEver(Next(s, es[0]), es[1..], x);
    }
  }

  /** The stock of a failed order that is held stays held over every further run: no confirmation or release
      of it is under way, none is ever sent, and a repair takes the order for done. */
  lemma {:induction false} FailedKeepsItsStock(s: State, x: int, es: seq<Event>)
    requires Reachable(s) && StatusOf(s, x) == Some(Failed) && ReservationOf(s, x) == Some(L.Held) && Runs(s, es)
    ensures Unasked(s, x)
    ensures StatusOf(Run(s, es), x) == Some(Failed) && ReservationOf(Run(s, es), x) == Some(L.Held)
  {
    HeldIsUnasked(s, x);
    ReachableInv(s);
    LeakedForEver(s, es, x);
  }

  // ----- and stored late

  ghost predicate ReserveSent(s: State, x: int)
    requires x in s.orders
  {
    exists i :: (i, ReserveCall(x, s.orders[x].reservation, s.orders[x].lines)) in s.sent
  }

  lemma {:induction false} SentGrows(s: State, e: Event)
    requires Enabled(s, e)
    ensures s.sent <= Next(s, e).sent
  {
  }

  lemma {:induction false} StepReserveSent(s: State, e: Event, x: int)
    requires Inv(s) && Enabled(s, e) && x in Next(s, e).orders && (x in s.orders ==> ReserveSent(s, x))
    ensures ReserveSent(Next(s, e), x)
  {
    var s' := Next(s, e);
    if x in s.orders {
      SentGrows(s, e);
      StepMovesOrder(s, e, x);
      var i :| (i, ReserveCall(x, s.orders[x].reservation, s.orders[x].lines)) in s.sent;
      assert (i, ReserveCall(x, s'.orders[x].reservation, s'.orders[x].lines)) in s'.sent;
    } else {
      assert (s.nextOp, ReserveCall(x, s'.orders[x].reservation, s'.orders[x].lines)) in s'.sent;
    }
  }

  lemma {:induction false} RunReserveSent(s: State, es: seq<Event>, x: int)
    requires Inv(s) && Runs(s, es) && (forall y | y in s.orders :: ReserveSent(s, y)) && x in Run(s, es).orders
    ensures ReserveSent(Run(s, es), x)
    decreases |es|
  {
    if es != [] {
      StepInv(s, es[0]);
      forall y | y in Next(s, es[0]).orders ensures ReserveSent(Next(s, es[0]), y) { StepReserveSent(s, es[0], y); }
      RunReserveSent(Next(s, es[0]), es[1..], x);
    }
  }

  /** Stocking products has changed nothing but rows, and of no product is there less. */
  ghost predicate Stocked(s: State, s': State) {
    && s' == s.(inventory := s'.inventory)
    && s'.inventory.reservations == s.inventory.reservations && s'.inventory.byOrder == s.inventory.byOrder
    && forall p | p in s.inventory.rows ::
         p in s'.inventory.rows && s.inventory.rows[p].available <= s'.inventory.rows[p].available
  }

  lemma {:induction false} StockLine(s: State, l: Line) returns (e: Event)
    requires L.Valid(s.inventory) && l.product > 0 && l.quantity > 0
    ensures Enabled(s, e) && Stocked(s, Next(s, e))
    ensures l.product in Next(s, e).inventory.rows && l.quantity <= Next(s, e).inventory.rows[l.product].available
    ensures e.InitStock? || e.AddStock?
  {
    assert L.Balanced(s.inventory, l.product);
    e := if l.product in s.inventory.rows then AddStock(l.product, l.quantity) else InitStock(l.product, l.quantity);
  }

  /** Somebody may put in all that the lines ask for. */
  lemma {:induction false} StockLines(s: State, lines: seq<Line>) returns (es: seq<Event>)
    requires Reachable(s) && forall i | 0 <= i < |lines| :: lines[i].product > 0 && lines[i].quantity > 0
    ensures Runs(s, es) && Stocked(s, Run(s, es)) && LP.Servable(Run(s, es).inventory.rows, lines)
    decreases |lines|
  {
    es := [];
    if lines != [] {
      var n := |lines| - 1;
      var first := StockLines(s, lines[..n]);
      var s1 := Run(s, first);
      StaysReachable(s, first);
      ReachableInv(s1);
      var e := StockLine(s1, lines[n]);
      RunOne(s1, e, []);
      RunConcat(s, first, [e] + []);
      es := first + ([e] + []);
      assert lines == lines[..n] + [lines[n]];
    }
  }

  /** A late delivery of the request to reserve, with enough stock there. */
  lemma {:induction false} LateDelivery(s: State, x: int, i: nat)
    requires Inv(s) && x in s.orders && ReservationOf(s, x) == None
    requires (i, ReserveCall(x, s.orders[x].reservation, s.orders[x].lines)) in s.sent
    requires LP.Servable(s.inventory.rows, s.orders[x].lines)
    ensures var s' := Next(s, Deliver(i, ReserveCall(x, s.orders[x].reservation, s.orders[x].lines)));
      StatusOf(s', x) == StatusOf(s, x) && ReservationOf(s', x) == Some(L.Held)
  {
    ReserveAnswers(s, x);
  }

  /** An order that has failed can come to hold stock, and then holds it for ever, exactly if its stock has
      not been released: the request to reserve is never called back. */
  lemma {:induction false} FailedLeaksIff(s: State, x: int)
    requires Reachable(s) && StatusOf(s, x) == Some(Failed)
    ensures (exists es :: Runs(s, es) && ReservationOf(Run(s, es), x) == Some(L.Held)) <==>
      ReservationOf(s, x) != Some(L.Released)
  {
    ReachableInv(s);
    if ReservationOf(s, x) == Some(L.Released) {
      forall es | Runs(s, es) ensures ReservationOf(Run(s, es), x) == Some(L.Released) { ReleasedForEver(s, es, x); }
    } else {
      var es := CanLeak(s, x);
    }
  }

  lemma {:induction false} CanLeak(s: State, x: int) returns (es: seq<Event>)
    requires Reachable(s) && StatusOf(s, x) == Some(Failed) && ReservationOf(s, x) != Some(L.Released)
    ensures Runs(s, es) && ReservationOf(Run(s, es), x) == Some(L.Held)
  {
    OrderAndStockAgree(s, x);
    if ReservationOf(s, x) == None {
      es := LateReserve(s, x);
    } else {
      es := [];
      assert ReservationOf(s, x).value == L.Held;
    }
  }

  lemma {:induction false} ReleasedForEver(s: State, es: seq<Event>, x: int)
    requires Inv(s) && Runs(s, es) && x in s.orders && ReservationOf(s, x) == Some(L.Released)
    ensures ReservationOf(Run(s, es), x) == Some(L.Released)
    decreases |es|
  {
    if es != [] {
      SettledStays(s, es[0], x);
      StepInv(s, es[0]);
      ReleasedForEver(Next(s, es[0]), es[1..], x);
    }
  }

  lemma {:induction false} LateReserve(s: State, x: int) returns (es: seq<Event>)
    requires Reachable(s) && x in s.orders && ReservationOf(s, x) == None
    ensures Runs(s, es) && StatusOf(Run(s, es), x) == StatusOf(s, x) && ReservationOf(Run(s, es), x) == Some(L.Held)
  {
    var before :| Runs(START, before) && Run(START, before) == s;
    StartInv();
    RunReserveSent(START, before, x);
    var i :| (i, ReserveCall(x, s.orders[x].reservation, s.orders[x].lines)) in s.sent;
    ReachableInv(s);
    assert OrderOk(s, x);
    var first := StockLines(s, s.orders[x].lines);
    var s1 := Run(s, first);
    StaysReachable(s, first);
    ReachableInv(s1);
    LateDelivery(s1, x, i);
    var e := Deliver(i, ReserveCall(x, s.orders[x].reservation, s.orders[x].lines));
    RunOne(s1, e, []);
    RunConcat(s, first, [e] + []);
    es := first + ([e] + []);
  }

  /** Such orders exist: the first one placed, if the reply to its reservation is lost. */
  lemma {:induction false} LeakExists() returns (s: State)
    ensures Reachable(s) && StatusOf(s, 1) == Some(Failed) && ReservationOf(s, 1) == Some(L.Held)
  {
    var lines := [Line(1, 1)];
    var s2 := FirstOrder(lines);
    var e := Deliver(0, ReserveCall(1, "r", lines));
    FirstReservation(s2.inventory, lines);
    StepReachable(s2, e);
    s := FirstFails(Next(s2, e), lines);
  }

  lemma {:induction false} FirstFails(s: State, lines: seq<Line>) returns (s': State)
    requires Reachable(s) && 1 in s.orders && s.orders[1] == Order(1, "k", Reserving, "r", lines)
    requires 0 in s.ops && s.ops[0] == CreateOp(1, "r", AwaitReserve)
    requires "r" in s.inventory.reservations && s.inventory.reservations["r"].status == L.Held
    ensures Reachable(s') && StatusOf(s', 1) == Some(Failed) && ReservationOf(s', 1) == Some(L.Held)
  {
    var e1, e2 := OnCreate(0, ReserveErrored), OnCreate(0, FailedWritten(true));
    StepReachable(s, e1);
    ApplyShape(s, 0, s.ops[0], CreateEffect(s.ops[0], ReserveErrored));
    var s1 := Next(s, e1);
    StepReachable(s1, e2);
    ApplyShape(s1, 0, s1.ops[0], CreateEffect(s1.ops[0], FailedWritten(true)));
    s' := Next(s1, e2);
  }
}
