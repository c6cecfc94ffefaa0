/** Orders that nothing in the system brings on: those whose operation died in the middle, and those
    whose only tasks were given up before they were needed. */
module SagaStranded {
  import opened Wrappers
  import opened Items
  import opened Saga
  import opened SagaInvariant
  import opened SagaSteps
  import opened SagaTheorems
  import opened SagaProgress
  import L = Ledger
  import LP = LedgerProof
  import T = Leases

  // ----- orders without an owner

  predicate InTransit(st: OrderStatus) { st == Reserving || st == Paying || st == Cancelling }

  ghost predicate Ownerless(s: State, x: int) { forall i | i in s.ops :: Owned(s.ops[i]) != Some(x) }

  lemma {:induction false} EffectOwnerless(s: State, i: nat, op: Op, f: Effect, x: int)
    requires Ownerless(s, x) && (f.op.Some? ==> Owned(f.op.value) != Some(x))
    ensures Ownerless(Apply(s, i, op, f), x)
  {
  }

  lemma {:induction false} OwnerlessOps(s: State, e: Event, x: int)
    requires Enabled(s, e) && Ownerless(s, x) && x in s.orders && s.orders[x].status != Pending && x != s.nextOrder
    ensures Ownerless(Next(s, e), x)
  {
    if Actor(e).Some? { assert Owned(s.ops[Actor(e).value]) != Some(x); }
    match e
    case OnCreate(i, m) => EffectOwnerless(s, i, s.ops[i], CreateEffect(s.ops[i], m), x);
    case OnSettle(i, m) => EffectOwnerless(s, i, s.ops[i], SettleEffect(s, s.ops[i], m), x);
    case OnRepair(i, m) => EffectOwnerless(s, i, s.ops[i], RepairEffect(s, s.ops[i], m), x);
    case Crash(i) => EffectOwnerless(s, i, s.ops[i], Ends(None), x);
    case _ =>
  }

  lemma {:induction false} OwnerlessStays(s: State, es: seq<Event>, x: int)
    requires Inv(s) && Runs(s, es) && x in s.orders && InTransit(s.orders[x].status) && Ownerless(s, x)
    ensures StatusOf(Run(s, es), x) == Some(s.orders[x].status)
    decreases |es|
  {
    if es != [] {
      var e := es[0];
      assert OrderOk(s, x);
      StepMovesOrder(s, e, x);
      if Actor(e).Some? { assert Owned(s.ops[Actor(e).value]) != Some(x); }
      OwnerlessOps(s, e, x);
      StepInv(s, e);
      OwnerlessStays(Next(s, e), es[1..], x);
    }
  }

  /** One step of operation `i` that writes a new status. */
  lemma {:induction false} LastStep(s: State, i: nat, e: Event, f: Effect, x: int)
    requires i in s.ops && s.ops[i].order == x && x in s.orders && Enabled(s, e)
    requires Next(s, e) == Apply(s, i, s.ops[i], f)
    requires f.write.Some? && f.write.value != s.orders[x].status
    ensures Runs(s, [e]) && StatusOf(Run(s, [e]), x) != Some(s.orders[x].status)
  {
    RunOne(s, e, []);
    assert [e] + [] == [e];
  }

  /** The operation is about to write a status. */
  predicate Writing(op: Op) {
    match op
    case CreateOp(_, _, phase) => phase.WriteFailed? || phase.CommitPending? || phase.WriteUndone?
    case SettleOp(_, _, _, phase) => phase == WriteBack || phase == CommitFinal || phase == WriteReconciliation
    case _ => false
  }

  /** And nothing keeps it from doing so. */
  lemma {:induction false} OwnerWrites(s: State, i: nat) returns (es: seq<Event>)
    requires Reachable(s) && i in s.ops && Writing(s.ops[i]) && s.ops[i].order in s.orders
    ensures Runs(s, es) && StatusOf(Run(s, es), s.ops[i].order) != StatusOf(s, s.ops[i].order)
  {
    var op := s.ops[i];
    OwnerFindsItsStatus(s, i, i);
    match op {
      case CreateOp(x, _, phase) =>
        var m :=
          if phase.WriteFailed? then FailedWritten(true) else if phase.CommitPending? then PendingCommitted
          else UndoneWritten(true);
        es := [OnCreate(i, m)];
        LastStep(s, i, es[0], CreateEffect(op, m), x);
      case SettleOp(intent, x, _, phase) =>
        var m :=
          if phase == WriteBack then WrittenBack(true) else if phase == CommitFinal then FinalCommitted
          else ReconciliationWritten(true);
        es := [OnSettle(i, m)];
        LastStep(s, i, es[0], SettleEffect(s, op, m), x);
    }
  }

  /** A step that brings the owner to where it writes. */
  lemma {:induction false} FirstStep(s: State, i: nat, e: Event, f: Effect) returns (es: seq<Event>)
    requires Reachable(s) && i in s.ops && s.ops[i].order in s.orders && Enabled(s, e)
    requires Next(s, e) == Apply(s, i, s.ops[i], f)
    requires f.op.Some? && f.write == None && f.adopt == None && Writing(f.op.value)
    requires f.op.value.order == s.ops[i].order
    ensures Runs(s, es) && StatusOf(Run(s, es), s.ops[i].order) != StatusOf(s, s.ops[i].order)
  {
    ApplyShape(s, i, s.ops[i], f);
    StepReachable(s, e);
    var rest := OwnerWrites(Next(s, e), i);
    RunOne(s, e, rest);
    es := [e] + rest;
  }

  lemma {:induction false} OwnerMoves(s: State, i: nat) returns (es: seq<Event>)
    requires Reachable(s) && i in s.ops && Owned(s.ops[i]).Some? && s.ops[i].order in s.orders
    ensures Runs(s, es) && StatusOf(Run(s, es), s.ops[i].order) != StatusOf(s, s.ops[i].order)
  {
    var op := s.ops[i];
    if Writing(op) {
      es := OwnerWrites(s, i);
    } else if op.CreateOp? {
      var m := if op.create.AwaitReserve? then ReserveErrored else UndoReturned(false);
      es := FirstStep(s, i, OnCreate(i, m), CreateEffect(op, m));
    } else {
      es := FirstStep(s, i, OnSettle(i, SettleErrored), SettleEffect(s, op, SettleErrored));
    }
  }

  /** An order in a transient status keeps it over every further run if and only if no live operation
      owns it now: once its operation has died, nothing in the system repairs it. */
  lemma {:induction false} StrandedIffOwnerless(s: State, x: int)
    requires Reachable(s) && x in s.orders && InTransit(s.orders[x].status)
    ensures (forall es | Runs(s, es) :: StatusOf(Run(s, es), x) == Some(s.orders[x].status)) <==> Ownerless(s, x)
  {
    ReachableInv(s);
    if Ownerless(s, x) {
      forall es | Runs(s, es) ensures StatusOf(Run(s, es), x) == Some(s.orders[x].status) { OwnerlessStays(s, es, x); }
    } else {
      var i :| i in s.ops && Owned(s.ops[i]) == Some(x);
      var es := OwnerMoves(s, i);
    }
  }

  /** A crash strands the order the operation owned. */
  lemma {:induction false} CrashStrands(s: State, i: nat, es: seq<Event>)
    requires Reachable(s) && i in s.ops && Owned(s.ops[i]).Some? && Runs(Next(s, Crash(i)), es)
    ensures var x := s.ops[i].order; StatusOf(s, x).Some? && StatusOf(Run(Next(s, Crash(i)), es), x) == StatusOf(s, x)
  {
    var x := s.ops[i].order;
    OwnerFindsItsStatus(s, i, i);
    StepReachable(s, Crash(i));
    var s' := Next(s, Crash(i));
    ApplyShape(s, i, s.ops[i], Ends(None));
    forall j | j in s'.ops ensures Owned(s'.ops[j]) != Some(x) { OwnerFindsItsStatus(s, i, j); }
    StrandedIffOwnerless(s', x);
  }

  // ----- orders that wait for reconciliation

  /** A task that can still bring its order on. */
  ghost predicate Hopeful(s: State, t: nat) {
    && t in s.tasks && !s.tasks[t].action.Unsupported?
    && (s.tasks[t].lease.status == T.Pending || s.tasks[t].lease.status == T.Failed)
    && Grantable(s, s.tasks[t].order, Asks(s.tasks[t].action))
  }

  /** The order waits for reconciliation, and none of its tasks can help. */
  ghost predicate Hopeless(s: State, x: int) {
    StatusOf(s, x) == Some(ReconciliationRequired) && forall t | t in s.tasks && s.tasks[t].order == x :: !Hopeful(s, t)
  }

  ghost predicate NoFurtherTask(es: seq<Event>, x: int) {
    forall i | 0 <= i < |es| :: !(es[i].ManualTask? && es[i].order == x)
  }

  /** A new task is added by hand or belongs to an order that has just asked for reconciliation. */
  lemma {:induction false} NewTask(s: State, e: Event, t: nat)
    requires Enabled(s, e) && t !in s.tasks && t in Next(s, e).tasks
    ensures var k := Next(s, e).tasks[t];
      (e.ManualTask? && e.order == k.order)
          || (k.order in s.orders && s.orders[k.order].status != ReconciliationRequired)
  {
  }

  /** A task keeps its order and action, and a closed one stays closed. */
  lemma {:induction false} OldTask(s: State, e: Event, t: nat)
    requires Inv(s) && Enabled(s, e) && t in s.tasks
    ensures var s' := Next(s, e);
      && t in s'.tasks && s'.tasks[t].order == s.tasks[t].order && s'.tasks[t].action == s.tasks[t].action
      && (s.tasks[t].lease.status == T.Completed || s.tasks[t].lease.status == T.Unresolved ==>
           s'.tasks[t] == s.tasks[t])
  {
    if s.tasks[t].lease.status == T.Completed || s.tasks[t].lease.status == T.Unresolved {
      StepKeepsSettledTask(s, e, t);
    }
    StepKeepsTask(s, e, t);
  }

  lemma {:induction false} StepKeepsTask(s: State, e: Event, t: nat)
    requires Enabled(s, e) && t in s.tasks && t < s.nextTask
    ensures var s' := Next(s, e);
      t in s'.tasks && s'.tasks[t].order == s.tasks[t].order && s'.tasks[t].action == s.tasks[t].action
  {
  }

  /** Settled stock stays settled. */
  lemma {:induction false} SettledStays(s: State, e: Event, x: int)
    requires Inv(s) && Enabled(s, e) && x in s.orders && ReservationOf(s, x).Some?
    requires ReservationOf(s, x) != Some(L.Held)
    ensures ReservationOf(Next(s, e), x) == ReservationOf(s, x)
  {
    StepMovesOrder(s, e, x);
    StockKept(s, e);
  }

  lemma {:induction false} StockKept(s: State, e: Event)
    requires Enabled(s, e)
    ensures LP.Keeps(s.inventory, Next(s, e).inventory)
  {
    if e.Deliver? { ServeKeeps(s.inventory, e.call); } else { OnlyDeliveriesMoveStock(s, e); }
  }

  lemma {:induction false} ServeKeeps(t: L.Tables, c: Call)
    ensures LP.Keeps(t, Serve(t, c).0)
  {
  }

  lemma {:induction false} OnlyDeliveriesMoveStock(s: State, e: Event)
    requires Enabled(s, e) && !e.Deliver?
    ensures Next(s, e).inventory.reservations == s.inventory.reservations
  {
  }

  /** Only the owner of a lease on one of its tasks could bring the order on. */
  lemma {:induction false} NobodyMovesIt(s: State, e: Event, x: int)
    requires Inv(s) && Enabled(s, e) && Hopeless(s, x)
    ensures StatusOf(Next(s, e), x) == Some(ReconciliationRequired)
  {
    if Actor(e).Some? {
      var op := s.ops[Actor(e).value];
      assert OpOk(s, op);
      if op.RepairOp? { assert TaskOk(s, op.task) && (op.order == x ==> !Hopeful(s, op.task)); }
      ActorMovesNothing(s, e, Actor(e).value, x);
    } else {
      assert OrderOk(s, x);
      OthersMoveNothing(s, e, x);
    }
  }

  lemma {:induction false} OthersMoveNothing(s: State, e: Event, x: int)
    requires Enabled(s, e) && Actor(e) == None && StatusOf(s, x) == Some(ReconciliationRequired) && x != s.nextOrder
    ensures StatusOf(Next(s, e), x) == Some(ReconciliationRequired)
  {
  }

  lemma {:induction false} ActorMovesNothing(s: State, e: Event, i: nat, x: int)
    requires Enabled(s, e) && Actor(e) == Some(i) && i in s.ops && OpOk(s, s.ops[i])
    requires StatusOf(s, x) == Some(ReconciliationRequired)
    requires s.ops[i].RepairOp? && s.ops[i].order == x ==> TaskOk(s, s.ops[i].task) && !Hopeful(s, s.ops[i].task)
    ensures StatusOf(Next(s, e), x) == Some(ReconciliationRequired)
  {
    var op := s.ops[i];
    match e
    case OnCreate(_, m) => EffectKeepsStatus(s, i, op, CreateEffect(op, m), x);
    case OnSettle(_, m) => EffectKeepsStatus(s, i, op, SettleEffect(s, op, m), x);
    case OnRepair(_, m) =>
      assert op.order == x ==> !m.RepairCommitted?;
      EffectKeepsStatus(s, i, op, RepairEffect(s, op, m), x);
    case Crash(_) => EffectKeepsStatus(s, i, op, Ends(None), x);
  }

  lemma {:induction false} EffectKeepsStatus(s: State, i: nat, op: Op, f: Effect, x: int)
    requires x in s.orders && (op.order == x ==> f.write == None)
    ensures StatusOf(Apply(s, i, op, f), x) == StatusOf(s, x)
  {
  }

  lemma {:induction false} NoNewHope(s: State, s': State, x: int, t: nat)
    requires t in s.tasks && s.tasks[t].order == x && TaskOk(s, t) && !Hopeful(s, t)
    requires t in s'.tasks && s'.tasks[t].order == x && s'.tasks[t].action == s.tasks[t].action
    requires s.tasks[t].lease.status == T.Completed || s.tasks[t].lease.status == T.Unresolved ==>
      s'.tasks[t] == s.tasks[t]
    requires ReservationOf(s, x) == Some(L.Held) || ReservationOf(s', x) == ReservationOf(s, x)
    ensures !Hopeful(s', t)
  {
  }

  lemma {:induction false} HopelessStep(s: State, e: Event, x: int)
    requires Inv(s) && Enabled(s, e) && Hopeless(s, x) && !(e.ManualTask? && e.order == x)
    ensures Hopeless(Next(s, e), x)
  {
    assert OrderOk(s, x);
    NobodyMovesIt(s, e, x);
    if ReservationOf(s, x) != Some(L.Held) { SettledStays(s, e, x); }
    var s' := Next(s, e);
    forall t | t in s'.tasks && s'.tasks[t].order == x ensures !Hopeful(s', t) {
      if t in s.tasks {
        assert TaskOk(s, t);
        OldTask(s, e, t);
        NoNewHope(s, s', x, t);
      } else {
        NewTask(s, e, t);
      }
    }
  }

  lemma {:induction false} HopelessForEver(s: State, es: seq<Event>, x: int)
    requires Inv(s) && Runs(s, es) && Hopeless(s, x) && NoFurtherTask(es, x)
    ensures Hopeless(Run(s, es), x)
    decreases |es|
  {
    if es != [] {
      assert !(es[0].ManualTask? && es[0].order == x);
      HopelessStep(s, es[0], x);
      StepInv(s, es[0]);
      assert NoFurtherTask(es[1..], x);
      HopelessForEver(Next(s, es[0]), es[1..], x);
    }
  }

  /** Once its times have passed, a hopeful task repairs its order. */
  lemma {:induction false} HopefulRepairs(s: State, t: nat, x: int) returns (es: seq<Event>)
    requires Reachable(s) && StatusOf(s, x) == Some(ReconciliationRequired) && Hopeful(s, t) && s.tasks[t].order == x
    ensures Runs(s, es) && NoFurtherTask(es, x) && StatusOf(Run(s, es), x) != Some(ReconciliationRequired)
  {
    var r := s.tasks[t].lease;
    var now := s.clock + (if r.nextAttemptAt > s.clock then r.nextAttemptAt - s.clock else 0);
    if r.until.Some? && r.until.value >= now { now := r.until.value + 1; }
    var v := Visit("w", now, 0, 0);
    FaultFreeRepair(s, t, v);
    es := RepairSteps(s, t, v);
  }

  /** An order that waits for reconciliation can be brought on without a further task if and only if one
      of its tasks is open, supported, and asks for what can still become of the stock. */
  lemma {:induction false} RepairableIff(s: State, x: int)
    requires Reachable(s) && StatusOf(s, x) == Some(ReconciliationRequired)
    ensures
      (exists es :: Runs(s, es) && NoFurtherTask(es, x) && StatusOf(Run(s, es), x) != Some(ReconciliationRequired)) <==>
      (exists t :: t in s.tasks && s.tasks[t].order == x && Hopeful(s, t))
  {
    ReachableInv(s);
    if t :| t in s.tasks && s.tasks[t].order == x && Hopeful(s, t) {
      var es := HopefulRepairs(s, t, x);
    } else {
      assert Hopeless(s, x);
      forall es | Runs(s, es) && NoFurtherTask(es, x) ensures StatusOf(Run(s, es), x) == Some(ReconciliationRequired) {
        HopelessForEver(s, es, x);
      }
    }
  }

  // ----- why it matters who adds tasks

  /** A worker that loads a pending order for a task finds nothing to reconcile and gives the task up. */
  lemma {:induction false} PendingIsGivenUp(s: State, i: nat, op: Op) returns (es: seq<Event>, s': State)
    requires i in s.ops && s.ops[i] == op && op.RepairOp? && op.repair == LoadOrder && op.action == FinalizePayment
    requires StatusOf(s, op.order) == Some(Pending) && op.task in s.tasks && s.tasks[op.task].lease.owner == op.worker
    ensures Runs(s, es) && Run(s, es) == s' && s'.orders == s.orders && s'.inventory == s.inventory
    ensures s'.tasks ==
      s.tasks[op.task :=
        s.tasks[op.task].(lease := T.Mark(Lease(0), s.tasks[op.task].lease, op.worker, T.Unresolved, s.clock))]
  {
    var e1, e2 := OnRepair(i, OrderLoaded), OnRepair(i, MarkedUnresolved(true));
    ApplyShape(s, i, op, RepairEffect(s, op, OrderLoaded));
    var s1 := Next(s, e1);
    assert s1.tasks == s.tasks && s1.ops[i] == op.(repair := MarkUnresolved) && s1.clock == s.clock;
    ApplyShape(s1, i, s1.ops[i], RepairEffect(s1, s1.ops[i], MarkedUnresolved(true)));
    s' := Next(s1, e2);
    RunTwo(s, e1, s1, e2);
    es := [e1, e2];
  }

  /** A task added by hand for a pending order is given up at once. */
  lemma {:induction false} StrayIsGivenUp(s: State, x: int) returns (es: seq<Event>, s': State)
    requires x in s.orders && s.orders[x].status == Pending && !HasTask(s, x, FinalizePayment)
    ensures Runs(s, es) && Run(s, es) == s'
    ensures s'.orders == s.orders && s'.inventory == s.inventory
    ensures s.nextTask in s'.tasks && s'.tasks == s.tasks[s.nextTask := s'.tasks[s.nextTask]]
    ensures var k := s'.tasks[s.nextTask]; k.order == x && k.action == FinalizePayment && k.lease.status == T.Unresolved
  {
    var t, i := s.nextTask, s.nextOp;
    var e1, e2 := ManualTask(x, FinalizePayment), ClaimTask("w", t, s.clock, 0);
    var s1 := Next(s, e1);
    assert s1.tasks[t] == Task(x, FinalizePayment, T.Row(T.Pending, 0, s.clock, "", None));
    var s2 := Next(s1, e2);
    var rest;
    rest, s' := PendingIsGivenUp(s2, i, s2.ops[i]);
    RunTwo(s, e1, s1, e2);
    RunConcat(s, [e1, e2], rest);
    es := [e1, e2] + rest;
  }

  /** A payment that cannot be closed asks for reconciliation; a task there already is not opened anew. */
  lemma {:induction false} PayAsksInVain(s: State, i: nat, op: Op) returns (es: seq<Event>)
    requires Delivered(s, i, op, true) && op.intent == Pay && HasTask(s, op.order, FinalizePayment)
    ensures Runs(s, es) && StatusOf(Run(s, es), op.order) == Some(ReconciliationRequired) && Run(s, es).tasks == s.tasks
  {
    var e1, e2, e3 := OnSettle(i, SettleReplied), OnSettle(i, FinalAborted), OnSettle(i, ReconciliationWritten(true));
    assert Enabled(s, e1);
    ApplyShape(s, i, op, SettleEffect(s, op, SettleReplied));
    var s1 := Next(s, e1);
    ApplyShape(s1, i, s1.ops[i], SettleEffect(s1, s1.ops[i], FinalAborted));
    var s2 := Next(s1, e2);
    assert s2.tasks == s.tasks && HasTask(s2, op.order, FinalizePayment)
        && s2.ops[i] == op.(settle := WriteReconciliation);
    AskedInVain(s2, i, s2.ops[i]);
    RunThree(s, e1, s1, e2, s2, e3, Next(s2, e3));
    es := [e1, e2, e3] + [];
    assert Runs(Next(s2, e3), []) && Run(Next(s2, e3), []) == Next(s2, e3);
  }

  lemma {:induction false} AskedInVain(s: State, i: nat, op: Op)
    requires i in s.ops && s.ops[i] == op && op.SettleOp? && op.settle == WriteReconciliation
    requires StatusOf(s, op.order) == Some(Paying) && HasTask(s, op.order, FinalizePayment)
    ensures var s' := Next(s, OnSettle(i, ReconciliationWritten(true)));
      StatusOf(s', op.order) == Some(ReconciliationRequired) && s'.tasks == s.tasks
  {
  }

  /** From every reachable state with a pending order that holds its stock and has no task, there is a
      run after which it waits for reconciliation in vain: it is paid for, and nothing will say so. */
  lemma {:induction false} StrayTaskStrands(s: State, x: int) returns (es: seq<Event>)
    requires Reachable(s) && x in s.orders && s.orders[x].status == Pending && ReservationOf(s, x) == Some(L.Held)
    requires forall t | t in s.tasks :: s.tasks[t].order != x
    ensures Runs(s, es) && Hopeless(Run(s, es), x)
  {
    ReachableInv(s);
    var first, s4 := StrayIsGivenUp(s, x);
    var s7, op := SettleToDelivery(s4, Pay, x);
    assert s7.tasks[s.nextTask].order == x && s7.tasks[s.nextTask].action == FinalizePayment;
    var last := PayAsksInVain(s7, s4.nextOp, op);
    var o := s4.orders[x];
    var middle :=
        [Begin(Pay, Some(o.user), x), OnSettle(s4.nextOp, Entered),
          Deliver(s4.nextOp, SettleCall(x, o.reservation, Outcome(Pay)))];
    RunConcat(s, first, middle + last);
    es := first + (middle + last);
  }

  lemma {:induction false} FirstReservation(t: L.Tables, lines: seq<Line>)
    requires lines == [Line(1, 1)] && t.reservations == map[] && t.byOrder == map[] && 1 in t.rows
    requires t.rows[1] == L.Row(1, 0, 0)
    ensures var (t', r) := L.Reserve(t, 1, "r", lines);
      r == L.Granted("r") && "r" in t'.reservations && t'.reservations["r"].status == L.Held
  {
    MergeIdempotent(lines);
    LP.RefusalMeans(t.rows, lines);
  }

  lemma {:induction false} FirstIsPending(s: State, lines: seq<Line>) returns (s': State)
    requires Reachable(s) && 1 in s.orders && s.orders[1] == Order(1, "k", Reserving, "r", lines) && s.tasks == map[]
    requires s.outbox == map[]
    requires 0 in s.ops && s.ops[0] == CreateOp(1, "r", AwaitReserve)
    requires (0, ReserveCall(1, "r", lines), "r") in s.granted
    requires "r" in s.inventory.reservations && s.inventory.reservations["r"].status == L.Held
    ensures Reachable(s') && StatusOf(s', 1) == Some(Pending) && ReservationOf(s', 1) == Some(L.Held)
    ensures s'.tasks == map[]
  {
    var e1, e2 := OnCreate(0, ReserveReplied("r")), OnCreate(0, PendingCommitted);
    StepReachable(s, e1);
    ApplyShape(s, 0, s.ops[0], CreateEffect(s.ops[0], ReserveReplied("r")));
    var s1 := Next(s, e1);
    assert s1.outbox == map[] && s1.tasks == map[];
    StepReachable(s1, e2);
    ApplyShape(s1, 0, s1.ops[0], CreateEffect(s1.ops[0], PendingCommitted));
    s' := Next(s1, e2);
  }

  /** And there are such orders: the first one placed, for example. */
  lemma {:induction false} StrandedOrderExists() returns (s: State)
    ensures Reachable(s) && Hopeless(s, 1)
  {
    var lines := [Line(1, 1)];
    var s2 := FirstOrder(lines);
    var e := Deliver(0, ReserveCall(1, "r", lines));
    FirstReservation(s2.inventory, lines);
    StepReachable(s2, e);
    var s5 := FirstIsPending(Next(s2, e), lines);
    var es := StrayTaskStrands(s5, 1);
    StaysReachable(s5, es);
    s := Run(s5, es);
  }

  lemma {:induction false} FirstOrder(lines: seq<Line>) returns (s2: State)
    requires lines == [Line(1, 1)]
    ensures Reachable(s2) && 1 in s2.orders && s2.orders[1] == Order(1, "k", Reserving, "r", lines) && s2.tasks == map[]
    ensures s2.outbox == map[]
    ensures 0 in s2.ops && s2.ops[0] == CreateOp(1, "r", AwaitReserve) && (0, ReserveCall(1, "r", lines)) in s2.sent
    ensures s2.inventory.reservations == map[] && s2.inventory.byOrder == map[]
    ensures 1 in s2.inventory.rows && s2.inventory.rows[1] == L.Row(1, 0, 0)
  {
    assert Runs(START, []) && Run(START, []) == START;
    StepReachable(START, InitStock(1, 1));
    var s1 := Next(START, InitStock(1, 1));
    StepReachable(s1, Insert(1, "k", "r", lines));
    s2 := Next(s1, Insert(1, "k", "r", lines));
  }
}
