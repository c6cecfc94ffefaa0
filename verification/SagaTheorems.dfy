/** What the saga promises, for every run and every reachable state. */
module SagaTheorems {
  import opened Wrappers
  import opened Saga
  import opened SagaInvariant
  import opened SagaSteps
  import L = Ledger
  import T = Leases

  ghost predicate Reachable(s: State) {
    exists es :: Runs(START, es) && Run(START, es) == s
  }

  lemma {:induction false} ReachableInv(s: State)
    requires Reachable(s)
    ensures Inv(s)
  {
    var es :| Runs(START, es) && Run(START, es) == s;
    StartInv();
    RunInv(START, es);
  }

  lemma {:induction false} RunConcat(s: State, a: seq<Event>, b: seq<Event>)
    requires Runs(s, a) && Runs(Run(s, a), b)
    ensures Runs(s, a + b) && Run(s, a + b) == Run(Run(s, a), b)
    decreases |a|
  {
    if a == [] {
      assert a + b == b;
    } else {
      assert (a + b)[1..] == a[1..] + b;
      RunConcat(Next(s, a[0]), a[1..], b);
    }
  }

  lemma {:induction false} StaysReachable(s: State, es: seq<Event>)
    requires Reachable(s) && Runs(s, es)
    ensures Reachable(Run(s, es))
  {
    var before :| Runs(START, before) && Run(START, before) == s;
    RunConcat(START, before, es);
  }

  lemma {:induction false} RunOne(s: State, e: Event, es: seq<Event>)
    requires Enabled(s, e) && Runs(Next(s, e), es)
    ensures Runs(s, [e] + es) && Run(s, [e] + es) == Run(Next(s, e), es)
  {
    assert ([e] + es)[1..] == es;
  }

  lemma {:induction false} StepReachable(s: State, e: Event)
    requires Reachable(s) && Enabled(s, e)
    ensures Reachable(Next(s, e))
  {
    RunOne(s, e, []);
    StaysReachable(s, [e] + []);
  }

  // ----- order and reservation agree

  /** However calls were lost, delayed or repeated and whatever repairs ran: paid and finished orders
      have confirmed stock, cancelled ones released stock, a failed order's stock is never confirmed,
      an order that can still be settled has its stock stored, and stored stock is the order's lines. */
  lemma {:induction false} OrderAndStockAgree(s: State, x: int)
    requires Reachable(s) && x in s.orders
    ensures s.orders[x].status in {Paid, Finished} ==> ReservationOf(s, x) == Some(L.Confirmed)
    ensures s.orders[x].status == Cancelled ==> ReservationOf(s, x) == Some(L.Released)
    ensures s.orders[x].status == Failed ==> ReservationOf(s, x) != Some(L.Confirmed)
    ensures s.orders[x].status in {Pending, Paying, Cancelling, ReconciliationRequired} ==> ReservationOf(s, x).Some?
    ensures ReservationOf(s, x).Some? ==> s.inventory.reservations[s.orders[x].reservation].lines == s.orders[x].lines
  {
    ReachableInv(s);
    assert OrderOk(s, x);
    if ReservationOf(s, x).Some? {
      var id := s.orders[x].reservation;
      assert Owed(s, id);
      assert s.inventory.reservations[id].order == x;
    }
  }

  /** Stock is conserved in every state of the whole system. */
  lemma {:induction false} SagaConservesStock(s: State)
    requires Reachable(s)
    ensures L.Valid(s.inventory)
  {
    ReachableInv(s);
  }

  /** One order per user and idempotency key. */
  lemma {:induction false} OneOrderPerKey(s: State, x: int, y: int)
    requires Reachable(s) && x in s.orders && y in s.orders
    requires s.orders[x].user == s.orders[y].user && s.orders[x].key == s.orders[y].key
    ensures x == y
  {
    ReachableInv(s);
  }

  predicate Open(st: T.RowStatus) { st == T.Pending || st == T.Published || st == T.Failed }

  /** A step of an operation that ends an order as paid or cancelled closes its timeout row. */
  lemma {:induction false} EffectCloses(s: State, i: nat, op: Op, f: Effect, x: int)
    requires x in s.orders && x in s.outbox
    requires f.write == Some(Paid) || f.write == Some(Cancelled) ==> f.outbox == CloseOutbox
    requires s.orders[x].status != Paid && s.orders[x].status != Cancelled
    ensures var s' := Apply(s, i, op, f);
      StatusOf(s', x) == Some(Paid) || StatusOf(s', x) == Some(Cancelled) ==> x in s'.outbox && !Open(s'.outbox[x])
  {
  }

  lemma {:induction false} StepCloses(s: State, e: Event, x: int)
    requires Enabled(s, e) && x in s.orders && x in s.outbox && x != s.nextOrder
    requires s.orders[x].status != Paid && s.orders[x].status != Cancelled
    ensures var s' := Next(s, e);
      StatusOf(s', x) == Some(Paid) || StatusOf(s', x) == Some(Cancelled) ==> x in s'.outbox && !Open(s'.outbox[x])
  {
    match e
    case OnCreate(i, m) => EffectCloses(s, i, s.ops[i], CreateEffect(s.ops[i], m), x);
    case OnSettle(i, m) => EffectCloses(s, i, s.ops[i], SettleEffect(s, s.ops[i], m), x);
    case OnRepair(i, m) => EffectCloses(s, i, s.ops[i], RepairEffect(s, s.ops[i], m), x);
    case Crash(i) => EffectCloses(s, i, s.ops[i], Ends(None), x);
    case _ =>
  }

  /** Every order that can be settled has its timeout row, and the transaction that ends it as paid or
      cancelled, by its own operation or by a repair, leaves that row closed. */
  lemma {:induction false} TimeoutRowIsClosed(s: State, e: Event, x: int)
    requires Reachable(s) && Enabled(s, e) && x in s.orders
    ensures s.orders[x].status in {Pending, Paying, Cancelling} ==> x in s.outbox
    ensures x in s.outbox && s.orders[x].status != Paid && s.orders[x].status != Cancelled ==>
      var s' := Next(s, e);
      StatusOf(s', x) == Some(Paid) || StatusOf(s', x) == Some(Cancelled) ==> x in s'.outbox && !Open(s'.outbox[x])
  {
    ReachableInv(s);
    assert OrderOk(s, x);
    if x in s.outbox && s.orders[x].status != Paid && s.orders[x].status != Cancelled { StepCloses(s, e, x); }
  }

  // ----- ownership and the life cycle

  /** An order in flight belongs to one live operation, which finds the status it expects: neither of
      the closing compare-and-set statements can miss. */
  lemma {:induction false} OwnerFindsItsStatus(s: State, i: nat, j: nat)
    requires Reachable(s) && i in s.ops && Owned(s.ops[i]).Some?
    ensures StatusOf(s, s.ops[i].order) == Some(if s.ops[i].CreateOp? then Reserving else Transient(s.ops[i].intent))
    ensures j in s.ops && Owned(s.ops[j]) == Owned(s.ops[i]) ==> i == j
    ensures s.ops[i].CreateOp? && s.ops[i].create.CommitPending? ==> Enabled(s, OnCreate(i, PendingCommitted))
    ensures s.ops[i].SettleOp? && s.ops[i].settle == CommitFinal ==> Enabled(s, OnSettle(i, FinalCommitted))
  {
    ReachableInv(s);
    assert OpOk(s, s.ops[i]) && OrderOk(s, s.ops[i].order);
    assert Rivals(s, i, j) ==> i == j;
  }

  lemma {:induction false} EffectMovesOrder(s: State, e: Event, i: nat, f: Effect, x: int)
    requires i in s.ops && EffectOk(s, s.ops[i], f) && x in s.orders && Actor(e) == Some(i)
    ensures OrderMoves(s, e, Apply(s, i, s.ops[i], f), x)
  {
    ApplyShape(s, i, s.ops[i], f);
  }

  lemma {:induction false} OpMovesOrder(s: State, e: Event, i: nat, x: int)
    requires Inv(s) && Enabled(s, e) && x in s.orders && Actor(e) == Some(i)
    ensures OrderMoves(s, e, Next(s, e), x)
  {
    var op := s.ops[i];
    assert OpOk(s, op) && OrderOk(s, op.order);
    match e
    case OnCreate(_, m) =>
      CreateEffectOk(s, i, m);
      EffectMovesOrder(s, e, i, CreateEffect(op, m), x);
    case OnSettle(_, m) =>
      SettleEffectOk(s, i, m);
      EffectMovesOrder(s, e, i, SettleEffect(s, op, m), x);
    case OnRepair(_, m) =>
      assert TaskOk(s, op.task) && (!s.manual ==> TriggerTaskOk(s, op.task));
      RepairEffectOk(s, i, m);
      EffectMovesOrder(s, e, i, RepairEffect(s, op, m), x);
    case Crash(_) => EffectMovesOrder(s, e, i, Ends(None), x);
  }

  lemma {:induction false} StepMovesOrder(s: State, e: Event, x: int)
    requires Inv(s) && Enabled(s, e) && x in s.orders
    ensures OrderMoves(s, e, Next(s, e), x)
  {
    assert OrderOk(s, x);
    if Actor(e).Some? { OpMovesOrder(s, e, Actor(e).value, x); }
  }

  /** Every step moves every order along its life cycle, and the unconditional status writes only
      ever replace the transient status of the operation that makes them. */
  lemma {:induction false} LifeCycle(s: State, e: Event, x: int)
    requires Reachable(s) && Enabled(s, e) && x in s.orders
    ensures OrderMoves(s, e, Next(s, e), x)
  {
    ReachableInv(s);
    StepMovesOrder(s, e, x);
  }

  predicate Ended(from: OrderStatus, to: OrderStatus) {
    to == from || (from == Paid && to == Finished)
  }

  /** Failed, cancelled and finished orders stay so over any further run; a paid one may finish. */
  lemma {:induction false} EndedForEver(s: State, es: seq<Event>, x: int)
    requires Inv(s) && Runs(s, es) && x in s.orders && Closed(s.orders[x].status)
    ensures x in Run(s, es).orders && Ended(s.orders[x].status, Run(s, es).orders[x].status)
    decreases |es|
  {
    if es != [] {
      StepInv(s, es[0]);
      StepMovesOrder(s, es[0], x);
      EndedForEver(Next(s, es[0]), es[1..], x);
    }
  }

  // ----- reconciliation

  /** The only writes to an existing task: a claim, or an owner-guarded mark by its worker. */
  lemma {:induction false} StepOnTask(s: State, e: Event, t: nat)
    requires Enabled(s, e) && t in s.tasks && t < s.nextTask
    ensures t in Next(s, e).tasks
    ensures Next(s, e).tasks[t] != s.tasks[t] ==>
      || (e.ClaimTask? && e.task == t)
      || (e.OnRepair? && s.ops[e.op].task == t && s.tasks[t].lease.owner == s.ops[e.op].worker
          && Next(s, e).tasks[t].lease.status ==
             (match e.repair case RepairCommitted => T.Completed case MarkedFailed(_,
                 _) => T.Failed case _ => T.Unresolved))
  {
  }

  /** A task becomes completed only in the transaction of the worker that holds its lease, and that
      transaction leaves the order in the status the task's action aims at. */
  lemma {:induction false} CompletedByItsOwner(s: State, e: Event, t: nat)
    requires Reachable(s) && Enabled(s, e) && t in s.tasks
    requires s.tasks[t].lease.status != T.Completed
    requires t in Next(s, e).tasks && Next(s, e).tasks[t].lease.status == T.Completed
    ensures e.OnRepair? && e.repair == RepairCommitted && s.ops[e.op].task == t
    ensures s.tasks[t].lease.owner == s.ops[e.op].worker != ""
    ensures !s.tasks[t].action.Unsupported? && StatusOf(Next(s, e), s.tasks[t].order) == Some(Target(s.tasks[t].action))
  {
    ReachableInv(s);
    StepOnTask(s, e, t);
    assert OpOk(s, s.ops[e.op]);
  }

  /** Completed and unresolved tasks never change again, and a completed task's order keeps the
      target status, except that a paid order may finish. */
  lemma {:induction false} TaskSettledForEver(s: State, es: seq<Event>, t: nat)
    requires Inv(s) && Runs(s, es) && t in s.tasks && s.tasks[t].lease.status in {T.Completed, T.Unresolved}
    ensures t in Run(s, es).tasks && Run(s, es).tasks[t] == s.tasks[t]
    ensures s.tasks[t].lease.status == T.Completed ==> Reached(Run(s, es), s.tasks[t].order, s.tasks[t].action)
    decreases |es|
  {
    assert TaskOk(s, t);
    if es != [] {
      StepInv(s, es[0]);
      StepKeepsSettledTask(s, es[0], t);
      TaskSettledForEver(Next(s, es[0]), es[1..], t);
    }
  }

  lemma {:induction false} StepKeepsSettledTask(s: State, e: Event, t: nat)
    requires Inv(s) && Enabled(s, e) && t in s.tasks && s.tasks[t].lease.status in {T.Completed, T.Unresolved}
    ensures t in Next(s, e).tasks && Next(s, e).tasks[t] == s.tasks[t]
  {
    assert TaskOk(s, t);
    StepOnTask(s, e, t);
    if e.OnRepair? { assert OpOk(s, s.ops[e.op]); }
  }

  /** Whether inventory-service will answer a request to settle the order's stock that way with success. */
  ghost predicate Grantable(s: State, x: int, target: L.ReservationStatus) {
    ReservationOf(s, x) == Some(L.Held) || ReservationOf(s, x) == Some(target)
  }

  /** An order that asks for reconciliation has a task to repair it; as long as nobody adds tasks by
      hand it is the trigger's, it is still open, and its action suits what became of the stock. */
  lemma {:induction false} RepairIsAssigned(s: State, x: int)
    requires Reachable(s) && x in s.orders && s.orders[x].status == ReconciliationRequired
    ensures exists t ::
      && t in s.tasks && s.tasks[t].order == x && !s.tasks[t].action.Unsupported?
      && (!s.manual ==> s.tasks[t].lease.status in {T.Pending, T.Failed} && Grantable(s, x, Asks(s.tasks[t].action)))
  {
    ReachableInv(s);
    assert OrderOk(s, x) && Attended(s, x);
    var t :| t in s.tasks && s.tasks[t].order == x && !s.tasks[t].action.Unsupported?;
    assert TaskOk(s, t) && (!s.manual ==> TriggerTaskOk(s, t));
    match ReservationOf(s, x).value { case Held => case Confirmed => case Released => }
  }
}
