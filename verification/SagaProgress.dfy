/** Fault-free operations from any reachable state: what a single Pay, Cancel or repair achieves when
    every request is delivered once, every reply arrives and every transaction commits. Nothing is
    assumed about what else is in flight. */
module SagaProgress {
  import opened Wrappers
  import opened Items
  import opened Saga
  import opened SagaInvariant
  import opened SagaTheorems
  import L = Ledger
  import LP = LedgerProof
  import T = Leases

  lemma {:induction false} RunThree(s: State, e1: Event, s1: State, e2: Event, s2: State, e3: Event, s3: State)
    requires Enabled(s, e1) && s1 == Next(s, e1) && Enabled(s1, e2) && s2 == Next(s1, e2) && Enabled(s2, e3)
    requires s3 == Next(s2, e3)
    ensures forall rest :: Runs(s3, rest) ==>
      Runs(s, [e1, e2, e3] + rest) && Run(s, [e1, e2, e3] + rest) == Run(s3, rest)
  {
    forall rest | Runs(s3, rest) ensures Runs(s, [e1, e2, e3] + rest) && Run(s, [e1, e2, e3] + rest) == Run(s3, rest) {
      RunOne(s2, e3, rest);
      RunOne(s1, e2, [e3] + rest);
      RunOne(s, e1, [e2] + ([e3] + rest));
      assert [e1] + ([e2] + ([e3] + rest)) == [e1, e2, e3] + rest;
    }
  }

  lemma {:induction false} TransitionAnswers(t: L.Tables, id: string, target: L.ReservationStatus)
    requires L.Valid(t) && id in t.reservations && target != L.Held
    ensures L.Transition(t, id, target).1.Granted? <==> t.reservations[id].status in {L.Held, target}
  {
    if t.reservations[id].status == L.Held { LP.GuardNeverFails(t, id, target); }
  }

  /** A request to reserve whose stock is not stored is granted exactly if its lines can be served. */
  lemma {:induction false} ReserveAnswers(s: State, x: int)
    requires Inv(s) && x in s.orders && ReservationOf(s, x) == None
    ensures var o := s.orders[x];
      var (t, reply) := L.Reserve(s.inventory, x, o.reservation, o.lines);
      if LP.Servable(s.inventory.rows, o.lines)
      then reply == L.Granted(o.reservation) && t == L.Hold(s.inventory, x, o.reservation, o.lines)
      else reply.Declined?
  {
    var o := s.orders[x];
    assert OrderOk(s, x);
    MergeIdempotent(o.lines);
    LP.RefusalMeans(s.inventory.rows, o.lines);
    assert x in s.inventory.byOrder ==> Owed(s, s.inventory.byOrder[x]);
  }

  // ----- Pay and Cancel

  /** The steps of one Pay or Cancel: load, enter, deliver, and then follow the reply. */
  ghost function SettleSteps(s: State, intent: Intent, x: int): seq<Event>
    requires x in s.orders
  {
    var i, o := s.nextOp, s.orders[x];
    [Begin(intent, Some(o.user), x), OnSettle(i, Entered), Deliver(i, SettleCall(x, o.reservation, Outcome(intent)))]
    + if Grantable(s, x, Outcome(intent)) then [OnSettle(i, SettleReplied), OnSettle(i, FinalCommitted)]
      else [OnSettle(i, SettleErrored), OnSettle(i, WrittenBack(true))]
  }

  /** After the request has been delivered: the operation waits, owns the order, and has a grant
      exactly if the reservation could be settled its way. */
  ghost predicate Delivered(s: State, i: nat, op: Op, granted: bool) {
    && op.SettleOp? && op.settle == AwaitSettle && i in s.ops && s.ops[i] == op
    && StatusOf(s, op.order) == Some(Transient(op.intent))
    && (granted ==> exists id :: (i, SettleCallOf(op), id) in s.granted)
  }

  /** The order loaded and claimed: the operation owns it and its request is on the network. */
  lemma {:induction false} SettleEnters(s: State, intent: Intent, x: int) returns (s1: State, s2: State)
    requires x in s.orders && s.orders[x].status == Pending
    ensures var i, o := s.nextOp, s.orders[x];
      var op := SettleOp(intent, x, o.reservation, AwaitSettle);
      && Enabled(s, Begin(intent, Some(o.user), x)) && s1 == Next(s, Begin(intent, Some(o.user), x))
      && Enabled(s1, OnSettle(i, Entered)) && s2 == Next(s1, OnSettle(i, Entered))
      && s2.inventory == s.inventory && s2.tasks == s.tasks && Delivered(s2, i, op, false)
      && (i, SettleCallOf(op)) in s2.sent
  {
    var i, o := s.nextOp, s.orders[x];
    s1 := Next(s, Begin(intent, Some(o.user), x));
    assert Enabled(s1, OnSettle(i, Entered));
    ApplyShape(s1, i, s1.ops[i], SettleEffect(s1, s1.ops[i], Entered));
    s2 := Next(s1, OnSettle(i, Entered));
  }

  lemma {:induction false} SettleToDelivery(s: State, intent: Intent, x: int) returns (s3: State, op: Op)
    requires L.Valid(s.inventory) && x in s.orders && s.orders[x].status == Pending
    requires s.orders[x].reservation in s.inventory.reservations
    ensures op == SettleOp(intent, x, s.orders[x].reservation, AwaitSettle)
    ensures Delivered(s3, s.nextOp, op, Grantable(s, x, Outcome(intent))) && s3.tasks == s.tasks
    ensures var i, o := s.nextOp, s.orders[x];
      var first :=
          [Begin(intent, Some(o.user), x), OnSettle(i, Entered),
            Deliver(i, SettleCall(x, o.reservation, Outcome(intent)))];
      forall rest :: Runs(s3, rest) ==> Runs(s, first + rest) && Run(s, first + rest) == Run(s3, rest)
  {
    var i, o := s.nextOp, s.orders[x];
    var s1, s2 := SettleEnters(s, intent, x);
    op := SettleOp(intent, x, o.reservation, AwaitSettle);
    var e := Deliver(i, SettleCallOf(op));
    s3 := Next(s2, e);
    TransitionAnswers(s.inventory, o.reservation, Outcome(intent));
    RunThree(s, Begin(intent, Some(o.user), x), s1, OnSettle(i, Entered), s2, e, s3);
  }

  lemma {:induction false} SettleFromDelivery(s: State, i: nat, op: Op, granted: bool)
    requires Delivered(s, i, op, granted) && op.order in s.orders
    ensures var rest := if granted then [OnSettle(i, SettleReplied), OnSettle(i, FinalCommitted)]
                        else [OnSettle(i, SettleErrored), OnSettle(i, WrittenBack(true))];
      Runs(s, rest) && StatusOf(Run(s, rest), op.order) == Some(if granted then Final(op.intent) else Pending)
  {
    var x := op.order;
    var m, n := if granted then SettleReplied else SettleErrored, if granted then FinalCommitted else WrittenBack(true);
    assert Enabled(s, OnSettle(i, m));
    ApplyShape(s, i, op, SettleEffect(s, op, m));
    var s1 := Next(s, OnSettle(i, m));
    assert Enabled(s1, OnSettle(i, n));
    ApplyShape(s1, i, s1.ops[i], SettleEffect(s1, s1.ops[i], n));
    var s2 := Next(s1, OnSettle(i, n));
    RunOne(s1, OnSettle(i, n), []);
    RunOne(s, OnSettle(i, m), [OnSettle(i, n)] + []);
    assert [OnSettle(i, m)] + ([OnSettle(i, n)] + []) == [OnSettle(i, m), OnSettle(i, n)];
  }

  /** The steps can be taken and leave the order with status `st`. */
  ghost predicate Achieves(s: State, es: seq<Event>, x: int, st: OrderStatus) {
    Runs(s, es) && StatusOf(Run(s, es), x) == Some(st)
  }

  /** From any reachable state a fault-free Pay or Cancel of a pending order reaches its final status
      if the reservation is still held or already settled that way, and leaves the order pending if
      it has been settled the other way. */
  lemma {:induction false} FaultFreeSettle(s: State, intent: Intent, x: int)
    requires Reachable(s) && x in s.orders && s.orders[x].status == Pending
    ensures var reached := if Grantable(s, x, Outcome(intent)) then Final(intent) else Pending;
      Achieves(s, SettleSteps(s, intent, x), x, reached)
  {
    ReachableInv(s);
    assert OrderOk(s, x);
    var s3, op := SettleToDelivery(s, intent, x);
    SettleFromDelivery(s3, s.nextOp, op, Grantable(s, x, Outcome(intent)));
  }

  /** A pending order is never stuck: Pay or Cancel can still end it, both while its stock is held and
      exactly one of them once the stock has settled. */
  lemma {:induction false} PendingIsNeverStuck(s: State, x: int)
    requires Reachable(s) && x in s.orders && s.orders[x].status == Pending
    ensures var paid, cancelled :=
      Achieves(s, SettleSteps(s, Pay, x), x, Paid), Achieves(s, SettleSteps(s, Cancel, x), x, Cancelled);
      if ReservationOf(s, x) == Some(L.Held) then paid && cancelled else paid != cancelled
  {
    FaultFreeSettle(s, Pay, x);
    FaultFreeSettle(s, Cancel, x);
    OrderAndStockAgree(s, x);
    match ReservationOf(s, x).value { case Held => case Confirmed => case Released => }
  }

  // ----- repair

  /** How a worker comes to a task: at what time, under whose name, with what lease, and when it would
      try again. */
  datatype Visit = Visit(worker: string, now: int, lease: nat, retry: int)

  /** The steps of one repair: claim, load, deliver, and then follow the reply. */
  ghost function RepairSteps(s: State, t: nat, v: Visit): seq<Event>
    requires t in s.tasks && s.tasks[t].order in s.orders
  {
    var i, k := s.nextOp, s.tasks[t];
    [Tick(v.now), ClaimTask(v.worker, t, v.now, v.lease), OnRepair(i, OrderLoaded)]
    + ([Deliver(i, SettleCall(k.order, s.orders[k.order].reservation, Asks(k.action)))]
    + if Grantable(s, k.order, Asks(k.action)) then [OnRepair(i, RepairReplied), OnRepair(i, RepairCommitted)]
      else [OnRepair(i, RepairErrored), OnRepair(i, MarkedFailed(v.retry, true))])
  }

  lemma {:induction false} ClaimAndLoad(s: State, t: nat, v: Visit) returns (s3: State, op: Op)
    requires t in s.tasks && v.worker != "" && s.clock <= v.now && T.Claimable(s.tasks[t].lease, v.now)
    requires !s.tasks[t].action.Unsupported? && StatusOf(s, s.tasks[t].order) == Some(ReconciliationRequired)
    ensures var k := s.tasks[t];
      && op == RepairOp(v.worker, t, k.order, k.action, s.orders[k.order].reservation, AwaitRepair)
      && s3.orders == s.orders && s3.inventory == s.inventory && s.nextOp in s3.ops && s3.ops[s.nextOp] == op
      && (s.nextOp, RepairCallOf(op)) in s3.sent
      && t in s3.tasks && s3.tasks[t].order == k.order && s3.tasks[t].action == k.action
      && s3.tasks[t].lease.owner == v.worker
    ensures var first := [Tick(v.now), ClaimTask(v.worker, t, v.now, v.lease), OnRepair(s.nextOp, OrderLoaded)];
      forall rest :: Runs(s3, rest) ==> Runs(s, first + rest) && Run(s, first + rest) == Run(s3, rest)
  {
    var i, k := s.nextOp, s.tasks[t];
    var e1, e2, e3 := Tick(v.now), ClaimTask(v.worker, t, v.now, v.lease), OnRepair(i, OrderLoaded);
    var s1 := Next(s, e1);
    var s2 := Next(s1, e2);
    assert Enabled(s2, e3);
    ApplyShape(s2, i, s2.ops[i], RepairEffect(s2, s2.ops[i], OrderLoaded));
    s3 := Next(s2, e3);
    op := s3.ops[i];
    RunThree(s, e1, s1, e2, s2, e3, s3);
  }

  /** A repair that has claimed its task and loaded its order. */
  ghost predicate Loaded(s: State, i: nat, op: Op) {
    && op.RepairOp? && !op.action.Unsupported? && i in s.ops && s.ops[i] == op
    && StatusOf(s, op.order) == Some(ReconciliationRequired)
    && op.task in s.tasks && s.tasks[op.task].order == op.order && s.tasks[op.task].action == op.action
    && s.tasks[op.task].lease.owner == op.worker
  }

  ghost predicate LeavesTask(s: State, es: seq<Event>, t: nat, st: T.RowStatus) {
    Runs(s, es) && t in Run(s, es).tasks && Run(s, es).tasks[t].lease.status == st
  }

  lemma {:induction false} RunTwo(s: State, e1: Event, s1: State, e2: Event)
    requires Enabled(s, e1) && s1 == Next(s, e1) && Enabled(s1, e2)
    ensures Runs(s, [e1, e2]) && Run(s, [e1, e2]) == Next(s1, e2)
  {
    RunOne(s1, e2, []);
    RunOne(s, e1, [e2] + []);
    assert [e1] + ([e2] + []) == [e1, e2];
  }

  lemma {:induction false} ReplyAndCommit(s: State, i: nat, op: Op)
    requires Loaded(s, i, op) && op.repair == AwaitRepair && exists id :: (i, RepairCallOf(op), id) in s.granted
    ensures var rest := [OnRepair(i, RepairReplied), OnRepair(i, RepairCommitted)];
      Achieves(s, rest, op.order, Target(op.action)) && LeavesTask(s, rest, op.task, T.Completed)
  {
    var e1, e2 := OnRepair(i, RepairReplied), OnRepair(i, RepairCommitted);
    assert Enabled(s, e1);
    ApplyShape(s, i, op, RepairEffect(s, op, RepairReplied));
    var s1 := Next(s, e1);
    assert s1.tasks == s.tasks && Enabled(s1, e2);
    ApplyShape(s1, i, s1.ops[i], RepairEffect(s1, s1.ops[i], RepairCommitted));
    var s2 := Next(s1, e2);
    assert s2.tasks[op.task].lease.status == T.Completed;
    RunTwo(s, e1, s1, e2);
  }

  lemma {:induction false} ErrorAndMark(s: State, i: nat, op: Op, retry: int)
    requires Loaded(s, i, op) && op.repair == AwaitRepair
    ensures var rest := [OnRepair(i, RepairErrored), OnRepair(i, MarkedFailed(retry, true))];
      Achieves(s, rest, op.order, ReconciliationRequired) && LeavesTask(s, rest, op.task, T.Failed)
  {
    var e1, e2 := OnRepair(i, RepairErrored), OnRepair(i, MarkedFailed(retry, true));
    assert Enabled(s, e1);
    ApplyShape(s, i, op, RepairEffect(s, op, RepairErrored));
    var s1 := Next(s, e1);
    assert s1.tasks == s.tasks && Enabled(s1, e2);
    ApplyShape(s1, i, s1.ops[i], RepairEffect(s1, s1.ops[i], MarkedFailed(retry, true)));
    var s2 := Next(s1, e2);
    assert s2.tasks[op.task].lease.status == T.Failed;
    RunTwo(s, e1, s1, e2);
  }

  lemma {:induction false} DeliverAndFollow(s: State, i: nat, op: Op, retry: int)
    requires L.Valid(s.inventory) && Loaded(s, i, op) && op.repair == AwaitRepair && (i, RepairCallOf(op)) in s.sent
    requires s.orders[op.order].reservation == op.reservation && op.reservation in s.inventory.reservations
    ensures var granted := Grantable(s, op.order, Asks(op.action));
      var rest := [Deliver(i, RepairCallOf(op))]
        + if granted then [OnRepair(i, RepairReplied), OnRepair(i, RepairCommitted)]
          else [OnRepair(i, RepairErrored), OnRepair(i, MarkedFailed(retry, true))];
      && Achieves(s, rest, op.order, if granted then Target(op.action) else ReconciliationRequired)
      && LeavesTask(s, rest, op.task, if granted then T.Completed else T.Failed)
  {
    var e := Deliver(i, RepairCallOf(op));
    TransitionAnswers(s.inventory, op.reservation, Asks(op.action));
    var s1 := Next(s, e);
    assert Loaded(s1, i, op);
    if Grantable(s, op.order, Asks(op.action)) {
      assert (i, RepairCallOf(op), op.reservation) in s1.granted;
      ReplyAndCommit(s1, i, op);
      RunOne(s, e, [OnRepair(i, RepairReplied), OnRepair(i, RepairCommitted)]);
    } else {
      ErrorAndMark(s1, i, op, retry);
      RunOne(s, e, [OnRepair(i, RepairErrored), OnRepair(i, MarkedFailed(retry, true))]);
    }
  }

  /** From any reachable state, whoever has added tasks, a fault-free pass over a claimable task of an
      order that waits for reconciliation completes the task and brings the order to its target if the
      stock is held or settled that way, and leaves order and task for a retry if it is settled the other
      way. */
  lemma {:induction false} FaultFreeRepair(s: State, t: nat, v: Visit)
    requires Reachable(s) && t in s.tasks && !s.tasks[t].action.Unsupported?
    requires v.worker != "" && s.clock <= v.now && T.Claimable(s.tasks[t].lease, v.now)
    requires StatusOf(s, s.tasks[t].order) == Some(ReconciliationRequired)
    ensures var k, granted := s.tasks[t], Grantable(s, s.tasks[t].order, Asks(s.tasks[t].action));
      && Achieves(s, RepairSteps(s, t, v), k.order, if granted then Target(k.action) else ReconciliationRequired)
      && LeavesTask(s, RepairSteps(s, t, v), t, if granted then T.Completed else T.Failed)
  {
    ReachableInv(s);
    assert OrderOk(s, s.tasks[t].order);
    var s3, op := ClaimAndLoad(s, t, v);
    DeliverAndFollow(s3, s.nextOp, op, v.retry);
  }

  /** As long as tasks come from the trigger alone, every order that asks for reconciliation can be
      repaired: whenever its task can be claimed, one fault-free pass succeeds. */
  lemma {:induction false} TriggeredRepairSucceeds(s: State, t: nat, v: Visit)
    requires Reachable(s) && !s.manual && t in s.tasks && v.worker != "" && s.clock <= v.now
    requires StatusOf(s, s.tasks[t].order) == Some(ReconciliationRequired) && T.Claimable(s.tasks[t].lease, v.now)
    ensures !s.tasks[t].action.Unsupported?
    ensures Achieves(s, RepairSteps(s, t, v), s.tasks[t].order, Target(s.tasks[t].action))
    ensures LeavesTask(s, RepairSteps(s, t, v), t, T.Completed)
  {
    ReachableInv(s);
    var k := s.tasks[t];
    assert TriggerTaskOk(s, t) && OrderOk(s, k.order);
    match ReservationOf(s, k.order).value { case Held => case Confirmed => case Released => }
    FaultFreeRepair(s, t, v);
  }
}
