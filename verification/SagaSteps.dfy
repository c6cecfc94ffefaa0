/** Every step of the saga keeps the invariant, so it holds after every run. */
module SagaSteps {
  import opened Wrappers
  import opened Items
  import opened Saga
  import opened SagaInvariant
  import L = Ledger
  import LP = LedgerProof
  import T = Leases

  // ----- steps of operations

  lemma {:induction false} OpStepInv(s: State, i: nat, f: Effect)
    requires Inv(s) && i in s.ops && EffectOk(s, s.ops[i], f)
    requires f.write.Some? && f.mark.Some? ==> f.write.value != ReconciliationRequired
    ensures Inv(Apply(s, i, s.ops[i], f))
  {
    ApplyShape(s, i, s.ops[i], f);
    ApplyTaskShape(s, i, s.ops[i], f);
    ShapeInv(s, i, s.ops[i], f, Apply(s, i, s.ops[i], f));
  }

  lemma {:induction false} CreateInv(s: State, i: nat, m: CreateMove)
    requires Inv(s) && Enabled(s, OnCreate(i, m))
    ensures Inv(Next(s, OnCreate(i, m)))
  {
    assert OpOk(s, s.ops[i]) && OrderOk(s, s.ops[i].order);
    CreateEffectOk(s, i, m);
    OpStepInv(s, i, CreateEffect(s.ops[i], m));
  }

  lemma {:induction false} SettleInv(s: State, i: nat, m: SettleMove)
    requires Inv(s) && Enabled(s, OnSettle(i, m))
    ensures Inv(Next(s, OnSettle(i, m)))
  {
    assert OpOk(s, s.ops[i]) && OrderOk(s, s.ops[i].order);
    SettleEffectOk(s, i, m);
    OpStepInv(s, i, SettleEffect(s, s.ops[i], m));
  }

  lemma {:induction false} RepairInv(s: State, i: nat, m: RepairMove)
    requires Inv(s) && Enabled(s, OnRepair(i, m))
    ensures Inv(Next(s, OnRepair(i, m)))
  {
    var op := s.ops[i];
    assert OpOk(s, op) && OrderOk(s, op.order) && TaskOk(s, op.task) && (!s.manual ==> TriggerTaskOk(s, op.task));
    RepairEffectOk(s, i, m);
    OpStepInv(s, i, RepairEffect(s, s.ops[i], m));
  }

  lemma {:induction false} CrashInv(s: State, i: nat)
    requires Inv(s) && Enabled(s, Crash(i))
    ensures Inv(Next(s, Crash(i)))
  {
    assert OpOk(s, s.ops[i]);
    OpStepInv(s, i, Ends(None));
  }

  // ----- steps that leave orders and reservations alone

  /** Facts about operations survive any stable step that moves no order. */
  lemma {:induction false} StableOps(s: State, s': State)
    requires Stable(s, s') && OpsOk(s) && OneOwner(s)
    requires forall x | x in s.orders :: s'.orders[x].status == s.orders[x].status
    requires s'.ops == s.ops && s'.nextOp == s.nextOp
    ensures OpsOk(s') && OneOwner(s')
  {
    forall i | i in s'.ops ensures OpOk(s', s'.ops[i]) {
      assert OpOk(s, s.ops[i]);
      OpStable(s, s', s.ops[i]);
    }
    forall i, j | Rivals(s', i, j) ensures i == j { assert Rivals(s, i, j); }
  }

  /** The same when one operation starts that owns nothing any other operation owns. */
  lemma {:induction false} StartedOps(s: State, s': State, op: Op)
    requires Stable(s, s') && OpsOk(s) && OneOwner(s)
    requires forall x | x in s.orders :: s'.orders[x].status == s.orders[x].status
    requires s'.ops == s.ops[s.nextOp := op] && s'.nextOp == s.nextOp + 1 && OpOk(s', op)
    requires Owned(op).Some? ==> Owned(op).value !in s.orders
    ensures OpsOk(s') && OneOwner(s')
  {
    forall i | i in s'.ops ensures OpOk(s', s'.ops[i]) {
      if i != s.nextOp {
        assert OpOk(s, s.ops[i]);
        OpStable(s, s', s.ops[i]);
      }
    }
    forall i, j | Rivals(s', i, j) ensures i == j {
      if i in s.ops { assert OpOk(s, s.ops[i]); }
      if j in s.ops { assert OpOk(s, s.ops[j]); }
      if i != s.nextOp && j != s.nextOp { assert Rivals(s, i, j); }
    }
  }

  /** A task is judged by the order and the reservation it speaks of. */
  lemma {:induction false} QuietTask(s: State, s': State, t: nat)
    requires t in s.tasks && t in s'.tasks && s'.tasks[t] == s.tasks[t] && TaskOk(s, t)
    requires var y := s.tasks[t].order;
      y in s'.orders && s'.orders[y] == s.orders[y] && ReservationOf(s', y) == ReservationOf(s, y)
    requires s.tasks[t].order in s'.outbox <==> s.tasks[t].order in s.outbox
    ensures TaskOk(s', t)
    ensures TriggerTaskOk(s, t) ==> TriggerTaskOk(s', t)
  {
  }

  lemma {:induction false} QuietTasks(s: State, s': State)
    requires TasksOk(s) && s'.tasks == s.tasks && s'.nextTask == s.nextTask && s'.manual == s.manual
    requires s'.outbox.Keys == s.outbox.Keys
    requires forall y | y in s.orders ::
      y in s'.orders && s'.orders[y] == s.orders[y] && ReservationOf(s', y) == ReservationOf(s, y)
    requires forall y | y in s'.orders && y !in s.orders :: s'.orders[y].status != ReconciliationRequired
    ensures TasksOk(s')
  {
    forall t | t in s'.tasks ensures TaskOk(s', t) { assert TaskOk(s, t); QuietTask(s, s', t); }
    forall t | t in s'.tasks && !s'.manual ensures TriggerTaskOk(s', t) {
      assert TaskOk(s, t) && TriggerTaskOk(s, t);
      QuietTask(s, s', t);
    }
    forall t, u | Twins(s', t, u) ensures t == u { assert Twins(s, t, u); }
    forall x | x in s'.orders && s'.orders[x].status == ReconciliationRequired
      ensures Attended(s', x)
    {
      assert Attended(s, x);
    }
  }

  /** Orders and reservations stay as they are, except that an order may be added; tasks keep what
      they are about. */
  ghost predicate Quiet(s: State, s': State) {
    && s.orders.Keys <= s'.orders.Keys && (forall y | y in s.orders :: s'.orders[y] == s.orders[y])
    && s'.inventory.reservations == s.inventory.reservations
    && s'.outbox.Keys == s.outbox.Keys && s'.granted == s.granted
    && s.nextOp <= s'.nextOp && s.nextOrder <= s'.nextOrder && (s.manual ==> s'.manual)
    && (forall t | t in s.tasks ::
          && t in s'.tasks && s'.tasks[t].order == s.tasks[t].order && s'.tasks[t].action == s.tasks[t].action
          && (s.tasks[t].lease.status == T.Completed ==> s'.tasks[t].lease.status == T.Completed))
  }

  lemma {:induction false} QuietStable(s: State, s': State)
    requires Quiet(s, s')
    ensures Stable(s, s')
    ensures forall y | y in s.orders :: ReservationOf(s', y) == ReservationOf(s, y)
  {
    forall y | y in s.orders ensures ReservationOf(s', y) == ReservationOf(s, y) {}
  }

  lemma {:induction false} QuietRecords(s: State, s': State)
    requires Quiet(s, s') && OrdersOk(s) && ReservationsOk(s) && GrantsOk(s)
    requires forall y | y in s'.orders && y !in s.orders :: OrderOk(s', y)
    ensures Stable(s, s') && OrdersOk(s') && ReservationsOk(s') && GrantsOk(s')
    ensures forall y | y in s.orders :: ReservationOf(s', y) == ReservationOf(s, y)
  {
    QuietStable(s, s');
    forall y | y in s'.orders ensures OrderOk(s', y) { if y in s.orders { assert OrderOk(s, y); } }
    StableReservations(s, s');
    StableGrants(s, s');
  }

  lemma {:induction false} InsertInv(s: State, e: Event)
    requires Inv(s) && e.Insert? && Enabled(s, e)
    ensures Inv(Next(s, e))
  {
    var s' := Next(s, e);
    var x := s.nextOrder;
    assert x in s.orders ==> OrderOk(s, x);
    assert x !in s.orders && x !in s.outbox;
    QuietRecords(s, s');
    QuietTasks(s, s');
    StartedOps(s, s', s'.ops[s.nextOp]);
    StableCalls(s, s');
  }

  lemma {:induction false} BeginInv(s: State, e: Event)
    requires Inv(s) && e.Begin? && Enabled(s, e)
    ensures Inv(Next(s, e))
  {
    var s' := Next(s, e);
    assert OrderOk(s, e.order);
    QuietRecords(s, s');
    QuietTasks(s, s');
    StartedOps(s, s', s'.ops[s.nextOp]);
    StableCalls(s, s');
  }

  /** Time, stock supply and the outbox worker change nothing the invariant looks at. */
  lemma {:induction false} QuietInv(s: State, s': State)
    requires Inv(s) && Quiet(s, s') && L.Valid(s'.inventory)
    requires s'.orders == s.orders && s'.ops == s.ops && s'.sent == s.sent && TasksOk(s')
    requires s'.nextOrder == s.nextOrder && s'.nextOp == s.nextOp
    ensures Inv(s')
  {
    QuietRecords(s, s');
    StableOps(s, s');
    StableCalls(s, s');
  }

  // ----- tasks

  lemma {:induction false} AttendedKept(s: State, s': State)
    requires TasksOk(s) && s'.orders == s.orders
    requires forall t | t in s.tasks ::
      t in s'.tasks && s'.tasks[t].order == s.tasks[t].order && s'.tasks[t].action == s.tasks[t].action
    ensures forall x | x in s'.orders && s'.orders[x].status == ReconciliationRequired :: Attended(s', x)
  {
    forall x | x in s'.orders && s'.orders[x].status == ReconciliationRequired ensures Attended(s', x) {
      assert Attended(s, x);
      var t :| t in s.tasks && s.tasks[t].order == x && !s.tasks[t].action.Unsupported?;
      assert t in s'.tasks && s'.tasks[t].order == x && !s'.tasks[t].action.Unsupported?;
    }
  }

  /** An open task may change its lease and stay open. */
  lemma {:induction false} LeaseTasks(s: State, s': State, t: nat, lease: T.Row)
    requires TasksOk(s) && t in s.tasks && s.tasks[t].lease.status in {T.Pending, T.Failed}
    requires lease.status == s.tasks[t].lease.status
    requires s'.tasks == s.tasks[t := s.tasks[t].(lease := lease)] && s'.nextTask == s.nextTask && s'.manual == s.manual
    requires s'.orders == s.orders && s'.outbox == s.outbox && s'.inventory == s.inventory
    ensures TasksOk(s')
  {
    forall u | u in s'.tasks ensures TaskOk(s', u) { assert TaskOk(s, u); }
    forall u | u in s'.tasks && !s'.manual ensures TriggerTaskOk(s', u) {
      assert TriggerTaskOk(s, u);
      assert ReservationOf(s', s.tasks[u].order) == ReservationOf(s, s.tasks[u].order);
    }
    forall u, v | Twins(s', u, v) ensures u == v { assert Twins(s, u, v); }
    AttendedKept(s, s');
  }

  lemma {:induction false} ClaimInv(s: State, e: Event)
    requires Inv(s) && e.ClaimTask? && Enabled(s, e)
    ensures Inv(Next(s, e))
  {
    var s' := Next(s, e);
    assert TaskOk(s, e.task);
    LeaseTasks(s, s', e.task, s'.tasks[e.task].lease);
    QuietRecords(s, s');
    StartedOps(s, s', s'.ops[s.nextOp]);
    StableCalls(s, s');
  }

  lemma {:induction false} ManualInv(s: State, e: Event)
    requires Inv(s) && e.ManualTask? && Enabled(s, e)
    ensures Inv(Next(s, e))
  {
    ManualTasks(s, e);
    QuietInv(s, Next(s, e));
  }

  lemma {:induction false} ManualTasks(s: State, e: Event)
    requires TasksOk(s) && e.ManualTask? && Enabled(s, e)
    ensures TasksOk(Next(s, e))
  {
    var s' := Next(s, e);
    forall t | t in s'.tasks ensures TaskOk(s', t) { if t in s.tasks { assert TaskOk(s, t); } }
    forall t, u | Twins(s', t, u) ensures t == u {
      if t in s.tasks && u in s.tasks { assert Twins(s, t, u); }
    }
    AttendedKept(s, s');
  }

  // ----- Finish

  lemma {:induction false} FinishInv(s: State, e: Event)
    requires Inv(s) && e.FinishOrder? && Enabled(s, e)
    ensures Inv(Next(s, e))
  {
    var s' := Next(s, e);
    assert OrderOk(s, e.order);
    FinishRecords(s, s', e.order);
    FinishOps(s, s', e.order);
    FinishTasks(s, s', e.order);
    StableCalls(s, s');
    StableGrants(s, s');
    StableReservations(s, s');
  }

  ghost predicate FinishShape(s: State, s': State, x: int) {
    x in s.orders && s.orders[x].status == Paid && s' == s.(orders := s.orders[x := s.orders[x].(status := Finished)])
  }

  lemma {:induction false} FinishRecords(s: State, s': State, x: int)
    requires FinishShape(s, s', x) && OrdersOk(s)
    ensures Stable(s, s') && OrdersOk(s')
    ensures forall y | y in s.orders :: ReservationOf(s', y) == ReservationOf(s, y)
  {
    forall y | y in s.orders ensures ReservationOf(s', y) == ReservationOf(s, y) {}
    forall y | y in s'.orders ensures OrderOk(s', y) { assert OrderOk(s, y); }
  }

  lemma {:induction false} FinishOps(s: State, s': State, x: int)
    requires FinishShape(s, s', x) && Stable(s, s') && OpsOk(s) && OneOwner(s)
    ensures OpsOk(s') && OneOwner(s')
  {
    forall i | i in s'.ops ensures OpOk(s', s'.ops[i]) {
      assert OpOk(s, s.ops[i]);
      OpStable(s, s', s.ops[i]);
    }
    forall i, j | Rivals(s', i, j) ensures i == j { assert Rivals(s, i, j); }
  }

  lemma {:induction false} FinishTasks(s: State, s': State, x: int)
    requires FinishShape(s, s', x) && TasksOk(s)
    ensures TasksOk(s')
  {
    forall t | t in s'.tasks ensures TaskOk(s', t) {
      assert TaskOk(s, t);
      var k := s.tasks[t];
      if k.lease.status == T.Completed { EdgeKeepsReached(s, s', k.order, k.action); }
    }
    forall t | t in s'.tasks && !s'.manual ensures TriggerTaskOk(s', t) {
      var k := s.tasks[t];
      assert TriggerTaskOk(s, t) && ReservationOf(s', k.order) == ReservationOf(s, k.order);
      if k.lease.status == T.Completed { EdgeKeepsReached(s, s', k.order, k.action); }
    }
    forall t, u | Twins(s', t, u) ensures t == u { assert Twins(s, t, u); }
    forall y | y in s'.orders && s'.orders[y].status == ReconciliationRequired
      ensures Attended(s', y)
    {
      assert Attended(s, y);
    }
  }

  // ----- a request reaching inventory-service

  /** What a delivery does to the reservations: nothing, store the caller's reservation, or settle it. */
  ghost predicate Served(before: map<string, L.Reservation>, c: Call, after: map<string, L.Reservation>) {
    || after == before
    || (c.ReserveCall? && c.id !in before && after == before[c.id := L.Reservation(c.order, L.Held, c.lines)])
    || (c.SettleCall? && c.target != L.Held && c.id in before && before[c.id].status == L.Held
        && after == before[c.id := before[c.id].(status := c.target)])
  }

  lemma {:induction false} ServeReserve(s: State, c: Call)
    requires CallOk(s, c) && OrderOk(s, c.order) && L.Valid(s.inventory) && c.ReserveCall?
    ensures Served(s.inventory.reservations, c, Serve(s.inventory, c).0.reservations)
    ensures L.Valid(Serve(s.inventory, c).0)
  {
    MergeIdempotent(c.lines);
    LP.ReserveValid(s.inventory, c.order, c.id, c.lines);
  }

  lemma {:induction false} ServeShape(s: State, c: Call)
    requires CallOk(s, c) && OrderOk(s, c.order) && L.Valid(s.inventory)
    ensures Served(s.inventory.reservations, c, Serve(s.inventory, c).0.reservations)
    ensures L.Valid(Serve(s.inventory, c).0)
  {
    match c
    case ReserveCall(_, _, _) => ServeReserve(s, c);
    case SettleCall(_, id, target) => LP.TransitionValid(s.inventory, id, target);
  }

  lemma {:induction false} ServeReply(s: State, c: Call)
    requires CallOk(s, c) && L.Indexed(s.inventory) && ReservationsOk(s)
    ensures var (t, reply) := Serve(s.inventory, c);
      reply.Granted? ==>
        && c.id in t.reservations && (c.ReserveCall? ==> reply.id == c.id)
        && (c.SettleCall? ==> t.reservations[c.id].status == c.target)
  {
    if c.ReserveCall? && c.order in s.inventory.byOrder {
      assert Owed(s, s.inventory.byOrder[c.order]);
    }
  }

  /** The state after a delivery, as far as reservations are concerned. */
  ghost predicate DeliverShape(s: State, c: Call, s': State) {
    && Served(s.inventory.reservations, c, s'.inventory.reservations)
    && s'.orders == s.orders && s'.outbox == s.outbox && s'.tasks == s.tasks && s'.manual == s.manual
    && s'.ops == s.ops && s'.sent == s.sent
    && s'.nextOrder == s.nextOrder && s'.nextOp == s.nextOp && s'.nextTask == s.nextTask
  }

  lemma {:induction false} DeliverOther(s: State, c: Call, s': State, y: int)
    requires DeliverShape(s, c, s') && CallOk(s, c) && Apart(s) && y in s.orders && y != c.order
    ensures ReservationOf(s', y) == ReservationOf(s, y)
  {
  }

  lemma {:induction false} DeliverOrder(s: State, c: Call, s': State, y: int)
    requires DeliverShape(s, c, s') && CallOk(s, c) && Apart(s) && y in s.orders && OrderOk(s, y)
    ensures OrderOk(s', y) && (Launched(s, y) ==> Launched(s', y))
  {
    if y != c.order { DeliverOther(s, c, s', y); }
  }

  lemma {:induction false} DeliverRecords(s: State, c: Call, s': State)
    requires DeliverShape(s, c, s') && CallOk(s, c) && Apart(s) && OrdersOk(s) && ReservationsOk(s)
    ensures Stable(s, s') && OrdersOk(s') && ReservationsOk(s')
  {
    forall y | y in s.orders ensures OrderOk(s', y) && (Launched(s, y) ==> Launched(s', y)) {
      assert OrderOk(s, y);
      DeliverOrder(s, c, s', y);
    }
    forall id | id in s'.inventory.reservations ensures Owed(s', id) {
      if id in s.inventory.reservations { assert Owed(s, id); }
    }
  }

  lemma {:induction false} DeliverTasks(s: State, c: Call, s': State)
    requires DeliverShape(s, c, s') && CallOk(s, c) && Apart(s) && TasksOk(s)
    ensures TasksOk(s')
  {
    forall t | t in s'.tasks ensures TaskOk(s', t) { assert TaskOk(s, t); }
    forall t | t in s'.tasks && !s'.manual ensures TriggerTaskOk(s', t) {
      assert TriggerTaskOk(s, t);
      if s.tasks[t].order != c.order { DeliverOther(s, c, s', s.tasks[t].order); }
    }
    forall t, u | Twins(s', t, u) ensures t == u { assert Twins(s, t, u); }
    forall y | y in s'.orders && s'.orders[y].status == ReconciliationRequired
      ensures Attended(s', y)
    {
      assert Attended(s, y);
    }
  }

  /** The new grant, if there is one, is as it should be. */
  lemma {:induction false} DeliverGrants(s: State, i: nat, c: Call, s': State)
    requires CallOk(s, c) && L.Indexed(s.inventory) && ReservationsOk(s) && GrantsOk(s) && Enabled(s, Deliver(i, c))
    requires s' == Next(s, Deliver(i, c)) && Stable(s, s')
    ensures GrantsOk(s')
  {
    ServeReply(s, c);
    CallStable(s, s', c);
    StableGrants(s, s');
  }

  lemma {:induction false} DeliverInv(s: State, e: Event)
    requires Inv(s) && e.Deliver? && Enabled(s, e)
    ensures Inv(Next(s, e))
  {
    var s' := Next(s, e);
    var c := e.call;
    assert CallOk(s, c) && OrderOk(s, c.order);
    ServeShape(s, c);
    DeliverRecords(s, c, s');
    DeliverTasks(s, c, s');
    DeliverGrants(s, e.op, c, s');
    StableOps(s, s');
    StableCalls(s, s');
  }

  // ----- every step and every run

  lemma {:induction false} StepInv(s: State, e: Event)
    requires Inv(s) && Enabled(s, e)
    ensures Inv(Next(s, e))
  {
    match e
    case Insert(_, _, _, _) => InsertInv(s, e);
    case OnCreate(i, m) => CreateInv(s, i, m);
    case Begin(_, _, _) => BeginInv(s, e);
    case OnSettle(i, m) => SettleInv(s, i, m);
    case FinishOrder(_, _) => FinishInv(s, e);
    case ClaimTask(_, _, _, _) => ClaimInv(s, e);
    case OnRepair(i, m) => RepairInv(s, i, m);
    case Deliver(_, _) => DeliverInv(s, e);
    case Crash(i) => CrashInv(s, i);
    case ManualTask(_, _) => ManualInv(s, e);
    case _ => EnvironmentInv(s, e);
  }

  /** Stocking products, the outbox workers and the clock. */
  lemma {:induction false} EnvironmentInv(s: State, e: Event)
    requires Inv(s) && Enabled(s, e) && (e.InitStock? || e.AddStock? || e.WorkOutbox? || e.Tick?)
    ensures Inv(Next(s, e))
  {
    var s' := Next(s, e);
    EnvironmentQuiet(s, e, s');
    SameTasksInv(s, s');
  }

  lemma {:induction false} EnvironmentQuiet(s: State, e: Event, s': State)
    requires L.Valid(s.inventory) && Enabled(s, e) && s' == Next(s, e)
    requires e.InitStock? || e.AddStock? || e.WorkOutbox? || e.Tick?
    ensures Quiet(s, s') && L.Valid(s'.inventory)
  {
    if e.InitStock? { LP.InitValid(s.inventory, e.product, e.quantity); }
    if e.AddStock? { LP.AddValid(s.inventory, e.product, e.quantity); }
    assert s'.outbox.Keys == s.outbox.Keys;
  }

  lemma {:induction false} SameTasksInv(s: State, s': State)
    requires Inv(s) && Quiet(s, s') && L.Valid(s'.inventory)
    requires s'.orders == s.orders && s'.ops == s.ops && s'.sent == s.sent
    requires s'.tasks == s.tasks && s'.nextTask == s.nextTask && s'.manual == s.manual
    requires s'.nextOrder == s.nextOrder && s'.nextOp == s.nextOp
    ensures Inv(s')
  {
    QuietStable(s, s');
    QuietTasks(s, s');
    QuietInv(s, s');
  }

  lemma {:induction false} RunInv(s: State, es: seq<Event>)
    requires Inv(s) && Runs(s, es)
    ensures Inv(Run(s, es))
    decreases |es|
  {
    if es != [] {
      StepInv(s, es[0]);
      RunInv(Next(s, es[0]), es[1..]);
    }
  }

  lemma {:induction false} StartInv()
    ensures Inv(START)
  {
    assert L.Valid(L.EMPTY);
  }
}
