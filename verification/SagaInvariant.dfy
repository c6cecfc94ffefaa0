/** The inductive invariant of the saga and the proof that every step keeps it. */
module SagaInvariant {
  import opened Wrappers
  import opened Items
  import opened Saga
  import L = Ledger
  import LP = LedgerProof
  import T = Leases

  // ----- the invariant

  ghost predicate Stored(s: State, x: int) { ReservationOf(s, x).Some? }

  /** The order has left Reserving for good and cannot be failed while its stock may be confirmed. */
  ghost predicate Launched(s: State, x: int) {
    && x in s.orders && s.orders[x].status != Reserving && Stored(s, x)
    && (s.orders[x].status == Failed ==> ReservationOf(s, x) == Some(L.Released))
  }

  /** What an order's status says about its reservation. */
  ghost predicate OrderOk(s: State, x: int)
    requires x in s.orders
  {
    var o := s.orders[x];
    && 0 < x < s.nextOrder && o.reservation != "" && WellFormed(o.lines) && Ascending(o.lines) && Typed(o.lines)
    && match o.status
       case Reserving => ReservationOf(s, x) != Some(L.Confirmed) && x !in s.outbox
       case Failed => ReservationOf(s, x) != Some(L.Confirmed)
       case Paid => ReservationOf(s, x) == Some(L.Confirmed)
       case Finished => ReservationOf(s, x) == Some(L.Confirmed)
       case Cancelled => ReservationOf(s, x) == Some(L.Released)
       case ReconciliationRequired => Stored(s, x)
       case _ => Stored(s, x) && x in s.outbox
  }

  ghost predicate Apart(s: State) {
    forall x, y | x in s.orders && y in s.orders && x != y ::
      && s.orders[x].reservation != s.orders[y].reservation
      && (s.orders[x].user != s.orders[y].user || s.orders[x].key != s.orders[y].key)
  }

  /** A stored reservation belongs to the order that asked for it and holds that order's lines. */
  ghost predicate Owed(s: State, id: string)
    requires id in s.inventory.reservations
  {
    var r := s.inventory.reservations[id];
    r.order in s.orders && s.orders[r.order].reservation == id && s.orders[r.order].lines == r.lines
  }

  ghost predicate CallOk(s: State, c: Call) {
    && c.order in s.orders && s.orders[c.order].reservation == c.id
    && match c
       case ReserveCall(x, _, lines) => s.orders[x].lines == lines
       case SettleCall(x, _, target) =>
         target != L.Held && (target == L.Confirmed ==> Launched(s, x) && (s.manual || x in s.outbox))
  }

  ghost predicate GrantOk(s: State, c: Call, id: string) {
    && CallOk(s, c) && Stored(s, c.order)
    && match c
       case ReserveCall(_, wanted, _) => id == wanted
       case SettleCall(x, _, target) => ReservationOf(s, x) == Some(target)
  }

  /** The order an operation alone may move out of its transient status. */
  function Owned(op: Op): Option<int> {
    match op
    case CreateOp(x, _, _) => Some(x)
    case SettleOp(_, x, _, phase) => if phase == Enter then None else Some(x)
    case RepairOp(_, _, _, _, _, _) => None
  }

  predicate Closed(st: OrderStatus) { st in {Failed, Cancelled, Paid, Finished} }

  ghost predicate OpOk(s: State, op: Op) {
    match op
    case CreateOp(x, id, phase) =>
      && x in s.orders && s.orders[x].reservation == id && s.orders[x].status == Reserving
      && (phase.CommitPending? || phase.AwaitUndo? ==> phase.id == id && Stored(s, x))
      && (phase.WriteUndone? ==> Stored(s, x) && (phase.released ==> ReservationOf(s, x) == Some(L.Released)))
    case SettleOp(intent, x, id, phase) =>
      && x in s.orders && s.orders[x].reservation == id && Launched(s, x) && x in s.outbox
      && (phase != Enter ==> s.orders[x].status == Transient(intent))
      && (phase.CommitFinal? || phase.WriteReconciliation? ==> ReservationOf(s, x) == Some(Outcome(intent)))
    case RepairOp(w, t, x, a, id, phase) =>
      && w != "" && t in s.tasks && s.tasks[t].order == x && s.tasks[t].action == a && x in s.orders
      && (phase == AwaitRepair ==> !a.Unsupported? && s.orders[x].reservation == id && Launched(s, x))
      && (phase == CommitRepair ==>
           !a.Unsupported? && (ReservationOf(s, x) == Some(Asks(a)) || Closed(s.orders[x].status)))
      && (phase == MarkUnresolved && !s.manual ==> s.tasks[t].lease.status == T.Completed)
  }

  /** Two operations both own one order. */
  ghost predicate Rivals(s: State, i: nat, j: nat) {
    i in s.ops && j in s.ops && Owned(s.ops[i]).Some? && Owned(s.ops[i]) == Owned(s.ops[j])
  }

  /** Every order in a transient status has at most one operation that owns it. */
  ghost predicate OneOwner(s: State) { forall i, j | Rivals(s, i, j) :: i == j }

  /** The order has the status task action `a` works toward, or has moved on from Paid to Finished. */
  ghost predicate Reached(s: State, x: int, a: Action) {
    && x in s.orders && !a.Unsupported?
    && (s.orders[x].status == Target(a) || (a == FinalizePayment && s.orders[x].status == Finished))
  }

  ghost predicate TaskOk(s: State, t: nat)
    requires t in s.tasks
  {
    var k := s.tasks[t];
    && k.order in s.orders && k.lease.status != T.Published
    && (k.lease.status == T.Completed ==> k.lease.owner == "" && Reached(s, k.order, k.action))
    && (k.lease.status == T.Unresolved ==> k.lease.owner == "")
  }

  /** Without hand-made tasks: the one task of an order is open and can succeed while the order waits
      for it, and completed once the order has reached its target. */
  ghost predicate TriggerTaskOk(s: State, t: nat)
    requires t in s.tasks
  {
    var k := s.tasks[t];
    && k.order in s.orders && !k.action.Unsupported?
    && if k.lease.status == T.Completed then Reached(s, k.order, k.action)
       else
         && s.orders[k.order].status == ReconciliationRequired && k.lease.status != T.Unresolved
         && if k.action == ReleaseInventoryAndFail
            then k.order !in s.outbox && ReservationOf(s, k.order) != Some(L.Confirmed)
            else k.order in s.outbox && ReservationOf(s, k.order) == Some(Asks(k.action))
  }

  /** Two tasks for one order with one action; without hand-made tasks, two tasks for one order. */
  ghost predicate Twins(s: State, t: nat, u: nat) {
    && t in s.tasks && u in s.tasks && s.tasks[t].order == s.tasks[u].order
    && (s.manual ==> s.tasks[t].action == s.tasks[u].action)
  }

  /** Some task is there to repair order `x`. */
  ghost predicate Attended(s: State, x: int) {
    exists t :: t in s.tasks && s.tasks[t].order == x && !s.tasks[t].action.Unsupported?
  }

  ghost predicate TasksOk(s: State) {
    && (forall t | t in s.tasks :: t < s.nextTask)
    && (forall t {:trigger TaskOk(s, t)} | t in s.tasks :: TaskOk(s, t))
    && (!s.manual ==> forall t {:trigger TriggerTaskOk(s, t)} | t in s.tasks :: TriggerTaskOk(s, t))
    && (forall t, u | Twins(s, t, u) :: t == u)
    && (forall x {:trigger Attended(s, x)} | x in s.orders && s.orders[x].status == ReconciliationRequired ::
         Attended(s, x))
  }

  ghost predicate OrdersOk(s: State) { forall x {:trigger OrderOk(s, x)} | x in s.orders :: OrderOk(s, x) }

  ghost predicate ReservationsOk(s: State) { forall id | id in s.inventory.reservations :: Owed(s, id) }

  ghost predicate CallsOk(s: State) { forall i, c | (i, c) in s.sent :: i < s.nextOp && CallOk(s, c) }

  ghost predicate GrantsOk(s: State) { forall i, c, id | (i, c, id) in s.granted :: GrantOk(s, c, id) }

  ghost predicate OpsOk(s: State) {
    && (forall i | i in s.ops :: i < s.nextOp)
    && (forall i {:trigger OpOk(s, s.ops[i])} | i in s.ops :: OpOk(s, s.ops[i]))
  }

  ghost predicate Inv(s: State) {
    && s.nextOrder > 0 && L.Valid(s.inventory) && s.outbox.Keys <= s.orders.Keys
    && OrdersOk(s) && Apart(s) && ReservationsOk(s)
    && CallsOk(s) && GrantsOk(s) && OpsOk(s) && OneOwner(s)
    && TasksOk(s)
  }

  // ----- what a step may change

  /** The life cycle of an order. */
  predicate Edge(from: OrderStatus, to: OrderStatus) {
    match from
    case Reserving => to in {Pending, Failed, ReconciliationRequired}
    case Pending => to in {Paying, Cancelling}
    case Paying => to in {Paid, Pending, ReconciliationRequired}
    case Cancelling => to in {Cancelled, Pending, ReconciliationRequired}
    case ReconciliationRequired => to in {Failed, Cancelled, Paid}
    case Paid => to == Finished
    case _ => false
  }

  /** The operation that takes the step, if it is an operation's step. */
  function Actor(e: Event): Option<nat> {
    match e
    case OnCreate(i, _) => Some(i)
    case OnSettle(i, _) => Some(i)
    case OnRepair(i, _) => Some(i)
    case Crash(i) => Some(i)
    case _ => None
  }

  /** A step moves an order only along the life cycle, and out of a transient status only by the hand
      of the operation that owns the order. */
  ghost predicate OrderMoves(s: State, e: Event, s': State, x: int)
    requires x in s.orders
  {
    && x in s'.orders
    && s'.orders[x] == s.orders[x].(status := s'.orders[x].status)
    && (s'.orders[x].status != s.orders[x].status ==>
          && Edge(s.orders[x].status, s'.orders[x].status)
          && (s.orders[x].status in {Reserving, Paying, Cancelling} ==>
                Actor(e).Some? && Actor(e).value in s.ops && Owned(s.ops[Actor(e).value]) == Some(x)))
  }

  /** What earlier facts rest on, and a step keeps. */
  ghost predicate Stable(s: State, s': State) {
    && (forall x | x in s.orders ::
          && x in s'.orders
          && s'.orders[x] == s.orders[x].(status := s'.orders[x].status)
          && (Launched(s, x) ==> Launched(s', x))
          && (Closed(s.orders[x].status) ==> Closed(s'.orders[x].status)))
    && s.outbox.Keys <= s'.outbox.Keys
    && LP.Keeps(s.inventory, s'.inventory)
    && (s.manual ==> s'.manual)
    && (forall t | t in s.tasks ::
          && t in s'.tasks && s'.tasks[t].order == s.tasks[t].order && s'.tasks[t].action == s.tasks[t].action
          && (s.tasks[t].lease.status == T.Completed ==> s'.tasks[t].lease.status == T.Completed))
  }

  lemma {:induction false} ReservationStable(s: State, s': State, x: int)
    requires Stable(s, s') && x in s.orders && Stored(s, x)
    ensures Stored(s', x)
    ensures ReservationOf(s, x) != Some(L.Held) ==> ReservationOf(s', x) == ReservationOf(s, x)
  {
    var id := s.orders[x].reservation;
    assert id in s.inventory.reservations;
  }

  lemma {:induction false} CallStable(s: State, s': State, c: Call)
    requires Stable(s, s') && CallOk(s, c)
    ensures CallOk(s', c)
  {
  }

  lemma {:induction false} GrantStable(s: State, s': State, c: Call, id: string)
    requires Stable(s, s') && GrantOk(s, c, id)
    ensures GrantOk(s', c, id)
  {
    CallStable(s, s', c);
    ReservationStable(s, s', c.order);
  }

  lemma {:induction false} OpStable(s: State, s': State, op: Op)
    requires Stable(s, s') && OpOk(s, op)
    requires Owned(op).Some? && Owned(op).value in s.orders ==> StatusOf(s', op.order) == StatusOf(s, op.order)
    ensures OpOk(s', op)
  {
    if Stored(s, op.order) { ReservationStable(s, s', op.order); }
  }

  lemma {:induction false} StableCalls(s: State, s': State)
    requires Stable(s, s') && CallsOk(s) && s.nextOp <= s'.nextOp
    requires forall i, c | (i, c) in s'.sent && (i, c) !in s.sent :: i < s'.nextOp && CallOk(s', c)
    ensures CallsOk(s')
  {
    forall i, c | (i, c) in s'.sent ensures i < s'.nextOp && CallOk(s', c) {
      if (i, c) in s.sent { CallStable(s, s', c); }
    }
  }

  lemma {:induction false} StableGrants(s: State, s': State)
    requires Stable(s, s') && GrantsOk(s)
    requires forall i, c, id | (i, c, id) in s'.granted && (i, c, id) !in s.granted :: GrantOk(s', c, id)
    ensures GrantsOk(s')
  {
    forall i, c, id | (i, c, id) in s'.granted ensures GrantOk(s', c, id) {
      if (i, c, id) in s.granted { GrantStable(s, s', c, id); }
    }
  }

  lemma {:induction false} StableReservations(s: State, s': State)
    requires Stable(s, s') && ReservationsOk(s) && s'.inventory.reservations == s.inventory.reservations
    ensures ReservationsOk(s')
  {
    forall id | id in s'.inventory.reservations ensures Owed(s', id) { assert Owed(s, id); }
  }

  // ----- steps of operations

  /** The status written fits the reservation, follows the life cycle and, out of a transient status,
      comes from the owner; leaving ReconciliationRequired completes the task that asked for it. */
  ghost predicate WriteOk(s: State, op: Op, f: Effect) {
    f.write.Some? ==>
      var x, w := op.order, f.write.value;
      && x in s.orders && Edge(s.orders[x].status, w)
      && (s.orders[x].status in {Reserving, Paying, Cancelling} ==> Owned(op) == Some(x))
      && (s.orders[x].status == ReconciliationRequired ==>
            && op.RepairOp? && !op.action.Unsupported? && w == Target(op.action)
            && op.task in s.tasks && s.tasks[op.task].lease.owner == op.worker && f.mark.Some?
            && f.mark.value.0 == T.Completed)
      && match w
         case Failed => if s.orders[x].status == Reserving then true else ReservationOf(s, x) == Some(L.Released)
         case Paid => ReservationOf(s, x) == Some(L.Confirmed)
         case Cancelled => ReservationOf(s, x) == Some(L.Released)
         case ReconciliationRequired =>
           && Stored(s, x)
           && (s.orders[x].status == Paying ==> ReservationOf(s, x) == Some(L.Confirmed))
           && (s.orders[x].status == Cancelling ==> ReservationOf(s, x) == Some(L.Released))
         case Finished => false
         case _ => Stored(s, x) && (x in s.outbox || f.outbox == OpenOutbox)
  }

  ghost predicate MarkOk(s: State, op: Op, f: Effect) {
    f.mark.Some? && op.RepairOp? ==>
      && f.mark.value.0 in {T.Failed, T.Completed, T.Unresolved}
      && (f.mark.value.0 == T.Completed && f.write == None ==>
           !op.action.Unsupported? && StatusOf(s, op.order) == Some(Target(op.action)))
      && (f.mark.value.0 == T.Completed && f.write.Some? ==>
           !op.action.Unsupported? && f.write == Some(Target(op.action)))
      && (f.mark.value.0 == T.Unresolved && !s.manual ==>
           op.task in s.tasks && s.tasks[op.task].lease.status == T.Completed)
  }

  ghost predicate NewOpOk(s: State, op: Op, f: Effect) {
    f.op.Some? ==>
      || (f.write == None && OpOk(s, f.op.value) && Owned(f.op.value) == Owned(op))
      || (op.SettleOp? && op.settle == Enter && f.op.value == op.(settle := AwaitSettle)
          && StatusOf(s, op.order) == Some(Pending) && f.write == Some(Transient(op.intent)))
  }

  ghost predicate EffectOk(s: State, op: Op, f: Effect) {
    && op.order in s.orders && WriteOk(s, op, f) && MarkOk(s, op, f) && NewOpOk(s, op, f)
    && (f.adopt.Some? ==> f.adopt.value == s.orders[op.order].reservation)
    && (f.send.Some? ==> CallOk(s, f.send.value))
    && (f.outbox == OpenOutbox ==> f.write == Some(Pending))
  }

  lemma {:induction false} CreateEffectOk(s: State, i: nat, m: CreateMove)
    requires Enabled(s, OnCreate(i, m)) && OpOk(s, s.ops[i]) && OrderOk(s, s.ops[i].order) && GrantsOk(s)
    ensures EffectOk(s, s.ops[i], CreateEffect(s.ops[i], m))
  {
    var op := s.ops[i];
    if m.ReserveReplied? {
      assert GrantOk(s, ReserveCall(op.order, op.reservation, s.orders[op.order].lines), m.id);
    }
    if m.UndoReturned? && m.released {
      var id :| (i, SettleCall(op.order, op.create.id, L.Released), id) in s.granted;
      assert GrantOk(s, SettleCall(op.order, op.create.id, L.Released), id);
    }
  }

  lemma {:induction false} SettleEffectOk(s: State, i: nat, m: SettleMove)
    requires Enabled(s, OnSettle(i, m)) && OpOk(s, s.ops[i]) && OrderOk(s, s.ops[i].order) && GrantsOk(s)
    ensures EffectOk(s, s.ops[i], SettleEffect(s, s.ops[i], m))
  {
    var op := s.ops[i];
    if m.SettleReplied? {
      var id :| (i, SettleCallOf(op), id) in s.granted;
      assert GrantOk(s, SettleCallOf(op), id);
    }
  }

  lemma {:induction false} RepairEffectOk(s: State, i: nat, m: RepairMove)
    requires Enabled(s, OnRepair(i, m)) && OpOk(s, s.ops[i]) && OrderOk(s, s.ops[i].order) && GrantsOk(s)
    requires TaskOk(s, s.ops[i].task) && (!s.manual ==> TriggerTaskOk(s, s.ops[i].task))
    ensures EffectOk(s, s.ops[i], RepairEffect(s, s.ops[i], m))
  {
    var op := s.ops[i];
    if m.RepairReplied? {
      var id :| (i, RepairCallOf(op), id) in s.granted;
      assert GrantOk(s, RepairCallOf(op), id);
    }
  }

  function StatusAfter(s: State, op: Op, f: Effect): OrderStatus
    requires op.order in s.orders
  {
    if f.write.Some? then f.write.value else s.orders[op.order].status
  }

  ghost predicate Triggers(s: State, op: Op, f: Effect)
    requires op.order in s.orders
  {
    StatusAfter(s, op, f) == ReconciliationRequired && s.orders[op.order].status != ReconciliationRequired
  }

  /** The state after a step, told field by field. */
  ghost predicate Shape(s: State, i: nat, op: Op, f: Effect, s': State)
    requires op.order in s.orders
  {
    var x := op.order;
    && s'.orders == s.orders[x := s.orders[x].(status := StatusAfter(s, op, f))]
    && s'.outbox.Keys == s.outbox.Keys + (if f.outbox == OpenOutbox then {x} else {})
    && s'.ops == (if f.op.Some? then s.ops[i := f.op.value] else s.ops - {i})
    && s'.sent == (if f.send.Some? then s.sent + {(i, f.send.value)} else s.sent)
    && s'.inventory == s.inventory && s'.granted == s.granted && s'.manual == s.manual
    && s'.nextOrder == s.nextOrder && s'.nextOp == s.nextOp
  }

  ghost predicate TaskShape(s: State, op: Op, f: Effect, s': State)
    requires op.order in s.orders
  {
    var a := TriggerAction(s.orders[op.order].status);
    && s.nextTask <= s'.nextTask
    && (forall t | t in s.tasks ::
          && t in s'.tasks
          && s'.tasks[t] == if f.mark.Some? && op.RepairOp? && t == op.task
                            then s.tasks[t].(lease :=
                                T.Mark(Lease(0), s.tasks[t].lease, op.worker, f.mark.value.0, f.mark.value.1))
                            else s.tasks[t])
    && (forall t | t in s'.tasks && t !in s.tasks ::
          && t < s'.nextTask && Triggers(s, op, f) && !HasTask(s, op.order, a)
          && s'.tasks[t].order == op.order && s'.tasks[t].action == a && s'.tasks[t].lease.owner == ""
          && s'.tasks[t].lease.status == if a.Unsupported? then T.Unresolved else T.Pending)
    && (forall t, u | t in s'.tasks && t !in s.tasks && u in s'.tasks && u !in s.tasks :: t == u)
    && (Triggers(s, op, f) ==> exists t :: t in s'.tasks && s'.tasks[t].order == op.order && s'.tasks[t].action == a)
  }

  lemma {:induction false} ApplyShape(s: State, i: nat, op: Op, f: Effect)
    requires op.order in s.orders && (f.adopt.Some? ==> f.adopt.value == s.orders[op.order].reservation)
    ensures Shape(s, i, op, f, Apply(s, i, op, f))
  {
  }

  lemma {:induction false} ApplyTaskShape(s: State, i: nat, op: Op, f: Effect)
    requires op.order in s.orders && (f.write.Some? && f.mark.Some? ==> f.write.value != ReconciliationRequired)
    requires forall t | t in s.tasks :: t < s.nextTask
    ensures TaskShape(s, op, f, Apply(s, i, op, f))
  {
    var s' := Apply(s, i, op, f);
    var a := TriggerAction(s.orders[op.order].status);
    if Triggers(s, op, f) {
      if HasTask(s, op.order, a) {
        var t :| t in s.tasks && s.tasks[t].order == op.order && s.tasks[t].action == a;
        assert t in s'.tasks && s'.tasks[t].order == op.order && s'.tasks[t].action == a;
      } else {
        assert s.nextTask in s'.tasks && s'.tasks[s.nextTask].order == op.order && s'.tasks[s.nextTask].action == a;
      }
    }
  }

  lemma {:induction false} ShapeOrder(s: State, i: nat, op: Op, f: Effect, s': State, y: int)
    requires EffectOk(s, op, f) && Shape(s, i, op, f, s') && y in s.orders && OrderOk(s, y)
    ensures OrderOk(s', y)
    ensures Launched(s, y) ==> Launched(s', y)
    ensures Closed(s.orders[y].status) ==> Closed(s'.orders[y].status)
  {
    assert ReservationOf(s', y) == ReservationOf(s, y);
  }

  lemma {:induction false} EdgeKeepsReached(s: State, s': State, x: int, a: Action)
    requires Reached(s, x, a) && x in s'.orders
    requires s'.orders[x].status == s.orders[x].status || Edge(s.orders[x].status, s'.orders[x].status)
    ensures Reached(s', x, a)
  {
  }

  lemma {:induction false} ShapeTask(s: State, i: nat, op: Op, f: Effect, s': State, t: nat)
    requires EffectOk(s, op, f) && Shape(s, i, op, f, s') && TaskShape(s, op, f, s') && OpOk(s, op)
    requires t in s'.tasks && (t in s.tasks ==> TaskOk(s, t))
    ensures TaskOk(s', t)
    ensures t in s.tasks && s.tasks[t].lease.status == T.Completed ==> s'.tasks[t] == s.tasks[t]
  {
    if t in s.tasks {
      var k := s.tasks[t];
      if k.lease.status == T.Completed { EdgeKeepsReached(s, s', k.order, k.action); }
    }
  }

  lemma {:induction false} ShapeStable(s: State, i: nat, op: Op, f: Effect, s': State)
    requires EffectOk(s, op, f) && Shape(s, i, op, f, s') && TaskShape(s, op, f, s') && OpOk(s, op) && OrdersOk(s)
    requires TasksOk(s)
    ensures Stable(s, s')
  {
    forall x | x in s.orders
      ensures Launched(s, x) ==> Launched(s', x)
      ensures Closed(s.orders[x].status) ==> Closed(s'.orders[x].status)
    {
      assert OrderOk(s, x);
      ShapeOrder(s, i, op, f, s', x);
    }
    forall t | t in s.tasks ensures s.tasks[t].lease.status == T.Completed ==> s'.tasks[t].lease.status == T.Completed {
      assert TaskOk(s, t);
      ShapeTask(s, i, op, f, s', t);
    }
  }

  lemma {:induction false} ShapeTrigger(s: State, i: nat, op: Op, f: Effect, s': State, t: nat)
    requires EffectOk(s, op, f) && Shape(s, i, op, f, s') && TaskShape(s, op, f, s') && OpOk(s, op)
    requires OrderOk(s, op.order) && !s.manual && t in s'.tasks
    requires t in s.tasks ==> TaskOk(s, t) && TriggerTaskOk(s, t)
    requires t in s.tasks && op.RepairOp? && op.task != t ==> s.tasks[t].order != s.tasks[op.task].order
    ensures TriggerTaskOk(s', t)
  {
    if t in s.tasks {
      var k := s.tasks[t];
      assert ReservationOf(s', k.order) == ReservationOf(s, k.order);
      if k.lease.status == T.Completed {
        ShapeTask(s, i, op, f, s', t);
        EdgeKeepsReached(s, s', k.order, k.action);
      }
    } else {
      assert ReservationOf(s', op.order) == ReservationOf(s, op.order);
    }
  }

  /** The task the trigger adds is the only one of its kind. */
  lemma {:induction false} NewTaskIsFirst(s: State, i: nat, op: Op, f: Effect, s': State, t: nat, u: nat)
    requires EffectOk(s, op, f) && Shape(s, i, op, f, s') && TaskShape(s, op, f, s')
    requires t in s'.tasks && t !in s.tasks && u in s.tasks && (!s.manual ==> TriggerTaskOk(s, u))
    ensures !Twins(s', t, u) && !Twins(s', u, t)
  {
  }

  lemma {:induction false} ShapeTwins(s: State, i: nat, op: Op, f: Effect, s': State, t: nat, u: nat)
    requires EffectOk(s, op, f) && Shape(s, i, op, f, s') && TaskShape(s, op, f, s') && TasksOk(s)
    requires Twins(s', t, u)
    ensures t == u
  {
    if t in s.tasks && u in s.tasks {
      assert Twins(s, t, u);
    } else if u in s.tasks {
      assert !s.manual ==> TriggerTaskOk(s, u);
      NewTaskIsFirst(s, i, op, f, s', t, u);
    } else if t in s.tasks {
      assert !s.manual ==> TriggerTaskOk(s, t);
      NewTaskIsFirst(s, i, op, f, s', u, t);
    }
  }

  lemma {:induction false} ShapeAttended(s: State, i: nat, op: Op, f: Effect, s': State, x: int)
    requires EffectOk(s, op, f) && Shape(s, i, op, f, s') && TaskShape(s, op, f, s')
    requires x in s.orders && s'.orders[x].status == ReconciliationRequired
    requires s.orders[x].status == ReconciliationRequired ==> Attended(s, x)
    ensures Attended(s', x)
  {
    if s.orders[x].status == ReconciliationRequired {
      var t :| t in s.tasks && s.tasks[t].order == x && !s.tasks[t].action.Unsupported?;
      assert t in s'.tasks && s'.tasks[t].order == x && !s'.tasks[t].action.Unsupported?;
    } else {
      assert x == op.order && Triggers(s, op, f);
    }
  }

  lemma {:induction false} ShapeTasks(s: State, i: nat, op: Op, f: Effect, s': State)
    requires EffectOk(s, op, f) && Shape(s, i, op, f, s') && TaskShape(s, op, f, s') && OpOk(s, op)
    requires OrderOk(s, op.order) && TasksOk(s)
    ensures TasksOk(s')
  {
    forall t | t in s'.tasks ensures TaskOk(s', t) {
      assert t in s.tasks ==> TaskOk(s, t);
      ShapeTask(s, i, op, f, s', t);
    }
    forall t | t in s'.tasks && !s'.manual ensures TriggerTaskOk(s', t) {
      assert t in s.tasks ==> TaskOk(s, t) && TriggerTaskOk(s, t);
      if op.RepairOp? && t in s.tasks { assert !Twins(s, t, op.task) || t == op.task; }
      ShapeTrigger(s, i, op, f, s', t);
    }
    forall t, u | Twins(s', t, u) ensures t == u { ShapeTwins(s, i, op, f, s', t, u); }
    forall x | x in s'.orders && s'.orders[x].status == ReconciliationRequired ensures Attended(s', x) {
      assert s.orders[x].status == ReconciliationRequired ==> Attended(s, x);
      ShapeAttended(s, i, op, f, s', x);
    }
  }

  /** Another operation's facts survive the step: the order it owns is not touched. */
  lemma {:induction false} ShapeOtherOp(s: State, i: nat, op: Op, f: Effect, s': State, j: nat)
    requires EffectOk(s, op, f) && Shape(s, i, op, f, s') && Stable(s, s')
    requires i in s.ops && op == s.ops[i] && j in s.ops && j != i && !Rivals(s, i, j) && OpOk(s, s.ops[j])
    ensures OpOk(s', s.ops[j])
    ensures f.op.Some? && Owned(f.op.value).Some? ==> Owned(f.op.value) != Owned(s.ops[j])
  {
    OpStable(s, s', s.ops[j]);
  }

  lemma {:induction false} ShapeNewOp(s: State, i: nat, op: Op, f: Effect, s': State)
    requires EffectOk(s, op, f) && Shape(s, i, op, f, s') && Stable(s, s') && OpOk(s, op) && f.op.Some?
    ensures OpOk(s', f.op.value)
  {
    if f.write == None { OpStable(s, s', f.op.value); }
  }

  lemma {:induction false} ShapeOps(s: State, i: nat, op: Op, f: Effect, s': State)
    requires EffectOk(s, op, f) && Shape(s, i, op, f, s') && Stable(s, s')
    requires i in s.ops && op == s.ops[i] && OpsOk(s) && OneOwner(s)
    ensures OpsOk(s') && OneOwner(s')
  {
    forall j | j in s'.ops ensures OpOk(s', s'.ops[j]) {
      assert OpOk(s, s.ops[j]);
      if j == i {
        ShapeNewOp(s, i, op, f, s');
      } else {
        assert Rivals(s, i, j) ==> i == j;
        ShapeOtherOp(s, i, op, f, s', j);
      }
    }
    forall j, k | Rivals(s', j, k) ensures j == k {
      assert OpOk(s, s.ops[j]) && OpOk(s, s.ops[k]);
      assert (Rivals(s, i, k) ==> i == k) && (Rivals(s, i, j) ==> i == j) && (Rivals(s, j, k) ==> j == k);
      if j == i && k != i { ShapeOtherOp(s, i, op, f, s', k); }
      if k == i && j != i { ShapeOtherOp(s, i, op, f, s', j); }
    }
  }

  lemma {:induction false} ShapeOrders(s: State, i: nat, op: Op, f: Effect, s': State)
    requires EffectOk(s, op, f) && Shape(s, i, op, f, s') && OrdersOk(s)
    ensures OrdersOk(s')
  {
    forall x | x in s'.orders ensures OrderOk(s', x) {
      assert OrderOk(s, x);
      ShapeOrder(s, i, op, f, s', x);
    }
  }

  lemma {:induction false} ShapeMessages(s: State, i: nat, op: Op, f: Effect, s': State)
    requires EffectOk(s, op, f) && Shape(s, i, op, f, s') && Stable(s, s') && i < s.nextOp
    requires CallsOk(s) && GrantsOk(s)
    ensures CallsOk(s') && GrantsOk(s')
  {
    StableGrants(s, s');
    if f.send.Some? { CallStable(s, s', f.send.value); }
    StableCalls(s, s');
  }

  lemma {:induction false} ShapeRecords(s: State, i: nat, op: Op, f: Effect, s': State)
    requires EffectOk(s, op, f) && Shape(s, i, op, f, s') && Stable(s, s')
    requires OrdersOk(s) && Apart(s) && ReservationsOk(s) && s.outbox.Keys <= s.orders.Keys
    ensures OrdersOk(s') && Apart(s') && ReservationsOk(s') && s'.outbox.Keys <= s'.orders.Keys
  {
    ShapeOrders(s, i, op, f, s');
    StableReservations(s, s');
  }

  /** A step of an operation that is allowed to do what it does keeps the invariant. */
  lemma {:induction false} ShapeInv(s: State, i: nat, op: Op, f: Effect, s': State)
    requires Inv(s) && i in s.ops && op == s.ops[i] && EffectOk(s, op, f)
    requires Shape(s, i, op, f, s') && TaskShape(s, op, f, s')
    ensures Inv(s')
  {
    assert OpOk(s, op) && OrderOk(s, op.order);
    ShapeStable(s, i, op, f, s');
    ShapeTasks(s, i, op, f, s');
    ShapeOps(s, i, op, f, s');
    ShapeMessages(s, i, op, f, s');
    ShapeRecords(s, i, op, f, s');
  }
}
