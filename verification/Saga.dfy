/** The order saga: order-service, inventory-service, the reconciliation workers and the network
    between them as one step system. Each local database transaction is one step. A request once sent
    may be lost, delayed and applied any number of times, a reply may be lost, any call may report an
    error whatever became of it, and any operation may die between two steps. */
module Saga {
  import opened Wrappers
  import opened Items
  import L = Ledger
  import T = Leases

  datatype OrderStatus =
    Reserving | Pending | Paying | Paid | Cancelling | Cancelled | Finished | Failed | ReconciliationRequired

  datatype Order = Order(user: int, key: string, status: OrderStatus, reservation: string, lines: seq<Line>)

  /** Pay and Cancel run the same steps; Cancel also stands for the timeout's cancellation. */
  datatype Intent = Pay | Cancel

  function Transient(i: Intent): OrderStatus { if i == Pay then Paying else Cancelling }
  function Final(i: Intent): OrderStatus { if i == Pay then Paid else Cancelled }
  function Outcome(i: Intent): L.ReservationStatus { if i == Pay then L.Confirmed else L.Released }

  datatype Action = ReleaseInventoryAndFail | FinalizeCancel | FinalizePayment | Unsupported(name: string)

  function Target(a: Action): OrderStatus
    requires !a.Unsupported?
  {
    match a case ReleaseInventoryAndFail => Failed case FinalizeCancel => Cancelled case FinalizePayment => Paid
  }

  function Asks(a: Action): L.ReservationStatus { if a == FinalizePayment then L.Confirmed else L.Released }

  datatype Task = Task(order: int, action: Action, lease: T.Row)

  /** The requests of the inventory client. `order` of a settling call is bookkeeping: the request
      itself names only the reservation. */
  datatype Call =
    | ReserveCall(order: int, id: string, lines: seq<Line>)
    | SettleCall(order: int, id: string, target: L.ReservationStatus)

  /** Where an operation stands: the statement it is about to run or the reply it waits for. */
  datatype CreatePhase =
    | AwaitReserve
    | WriteFailed
    | CommitPending(id: string)
    | AwaitUndo(id: string)
    | WriteUndone(released: bool)
  datatype SettlePhase = Enter | AwaitSettle | WriteBack | CommitFinal | WriteReconciliation
  datatype RepairPhase = LoadOrder | AwaitRepair | CommitRepair | MarkFailed | MarkUnresolved

  datatype Op =
    | CreateOp(order: int, reservation: string, create: CreatePhase)
    | SettleOp(intent: Intent, order: int, reservation: string, settle: SettlePhase)
    | RepairOp(worker: string, task: nat, order: int, action: Action, reservation: string, repair: RepairPhase)

  datatype State = State(
    orders: map<int, Order>,
    outbox: map<int, T.RowStatus>,
    tasks: map<nat, Task>,
    inventory: L.Tables,
    ops: map<nat, Op>,
    sent: set<(nat, Call)>,
    granted: set<(nat, Call, string)>,
    nextOrder: int, nextOp: nat, nextTask: nat,
    clock: int,
    manual: bool)  // whether someone other than the trigger has ever added a task

  const START := State(map[], map[], map[], L.EMPTY, map[], {}, {}, 1, 0, 0, 0, false)

  /** A worker's lease of `duration`; tasks count an attempt when they are claimed. */
  function Lease(duration: nat): T.Config { T.Config(duration, 0, true) }

  datatype CreateMove =
    | ReserveReplied(id: string) | ReserveErrored | FailedWritten(ok: bool)
    | PendingCommitted | PendingAborted | UndoReturned(released: bool) | UndoneWritten(ok: bool)
  datatype SettleMove =
    | Entered | EnterMissed | SettleReplied | SettleErrored
    | WrittenBack(ok: bool) | FinalCommitted | FinalAborted | ReconciliationWritten(ok: bool)
  datatype RepairMove =
    | OrderLoaded | LoadErrored | RepairReplied | RepairErrored
    | RepairCommitted | RepairAborted(mismatch: bool) | MarkedFailed(next: int, ok: bool) | MarkedUnresolved(ok: bool)

  datatype Event =
    | Insert(user: int, key: string, id: string, lines: seq<Line>)
    | OnCreate(op: nat, create: CreateMove)
    | Begin(intent: Intent, caller: Option<int>, order: int)
    | OnSettle(op: nat, settle: SettleMove)
    | FinishOrder(user: int, order: int)
    | ClaimTask(worker: string, task: nat, readAt: int, lease: nat)
    | OnRepair(op: nat, repair: RepairMove)
    | Deliver(op: nat, call: Call)
    | Crash(op: nat)
    | ManualTask(order: int, action: Action)
    | InitStock(product: int, quantity: int)
    | AddStock(product: int, quantity: int)
    | WorkOutbox(order: int, status: T.RowStatus)
    | Tick(now: int)

  // ----- small pieces

  function StatusOf(s: State, x: int): Option<OrderStatus> {
    if x in s.orders then Some(s.orders[x].status) else None
  }

  function ReservationOf(s: State, x: int): Option<L.ReservationStatus> {
    if x in s.orders && s.orders[x].reservation in s.inventory.reservations
    then Some(s.inventory.reservations[s.orders[x].reservation].status) else None
  }

  /** The action and task status the trigger on the order table derives from the status left. */
  function TriggerAction(from: OrderStatus): Action {
    match from
    case Reserving => ReleaseInventoryAndFail
    case Cancelling => FinalizeCancel
    case Paying => FinalizePayment
    case _ => Unsupported("unsupported_from_")
  }

  predicate HasTask(s: State, x: int, a: Action) {
    exists t | t in s.tasks :: s.tasks[t].order == x && s.tasks[t].action == a
  }

  function AddTask(s: State, x: int, a: Action, status: T.RowStatus): State {
    if HasTask(s, x, a) then s
    else
      s.(tasks := s.tasks[s.nextTask := Task(x, a, T.Row(status, 0, s.clock, "", None))], nextTask := s.nextTask + 1)
  }

  function SettleCallOf(op: Op): Call
    requires op.SettleOp?
  {
    SettleCall(op.order, op.reservation, Outcome(op.intent))
  }

  function RepairCallOf(op: Op): Call
    requires op.RepairOp?
  {
    SettleCall(op.order, op.reservation, Asks(op.action))
  }

  /** What one step of an operation does, all in one transaction: where the operation goes on, if it
      does, the status and the reservation identifier it writes to its order, the request it sends, and
      what becomes of the order's outbox row and of the task it works on. */
  datatype OutboxEffect = KeepOutbox | OpenOutbox | CloseOutbox
  datatype Effect = Effect(
    op: Option<Op>,
    write: Option<OrderStatus>,
    adopt: Option<string>,
    send: Option<Call>,
    outbox: OutboxEffect,
    mark: Option<(T.RowStatus, int)>)

  function Goes(op: Op): Effect { Effect(Some(op), None, None, None, KeepOutbox, None) }
  function Ends(write: Option<OrderStatus>): Effect { Effect(None, write, None, None, KeepOutbox, None) }

  function OutboxAfter(outbox: map<int, T.RowStatus>, x: int, e: OutboxEffect): map<int, T.RowStatus> {
    match e
    case KeepOutbox => outbox
    case OpenOutbox => outbox[x := T.Pending]
    case CloseOutbox =>
      if x in outbox && outbox[x] in {T.Pending, T.Published, T.Failed} then outbox[x := T.Completed] else outbox
  }

  function OrderAfter(o: Order, f: Effect): Order {
    o.(status := if f.write.Some? then f.write.value else o.status,
       reservation := if f.adopt.Some? then f.adopt.value else o.reservation)
  }

  /** The trigger on the order table, which runs in the transaction that updates the order. */
  function Triggered(s: State, x: int, from: OrderStatus, to: OrderStatus): State {
    if to != ReconciliationRequired || from == to then s
    else AddTask(s, x, TriggerAction(from), if TriggerAction(from).Unsupported? then T.Unresolved else T.Pending)
  }

  /** The owner-guarded write to a task row. */
  function TasksAfter(tasks: map<nat, Task>, op: Op, mark: Option<(T.RowStatus, int)>): map<nat, Task> {
    if mark == None || !op.RepairOp? || op.task !in tasks then tasks
    else
      var k := tasks[op.task];
      tasks[op.task := k.(lease := T.Mark(Lease(0), k.lease, op.worker, mark.value.0, mark.value.1))]
  }

  function Apply(s: State, i: nat, op: Op, f: Effect): State {
    var x := op.order;
    var t := if x in s.orders then Triggered(s, x, s.orders[x].status, OrderAfter(s.orders[x], f).status) else s;
    t.(orders := if x in s.orders then s.orders[x := OrderAfter(s.orders[x], f)] else s.orders,
       ops := if f.op.Some? then s.ops[i := f.op.value] else s.ops - {i},
       sent := if f.send.Some? then s.sent + {(i, f.send.value)} else s.sent,
       outbox := OutboxAfter(s.outbox, x, f.outbox),
       tasks := TasksAfter(t.tasks, op, f.mark))
  }

  // ----- when a step can happen

  predicate FreshId(s: State, id: string) {
    && id != "" && id !in s.inventory.reservations
    && forall x | x in s.orders :: s.orders[x].reservation != id
  }

  ghost predicate Enabled(s: State, e: Event) {
    match e
    case Insert(user, key, id, lines) =>
      && user > 0 && key != "" && FreshId(s, id)
      && WellFormed(lines) && Ascending(lines) && Typed(lines)
      && forall x | x in s.orders :: s.orders[x].user != user || s.orders[x].key != key
    case OnCreate(i, m) => i in s.ops && s.ops[i].CreateOp? && CreateEnabled(s, i, s.ops[i], m)
    case Begin(intent, caller, x) =>
      && x in s.orders && s.orders[x].status == Pending
      && (caller == None ==> intent == Cancel) && (caller.Some? ==> caller.value == s.orders[x].user)
    case OnSettle(i, m) => i in s.ops && s.ops[i].SettleOp? && SettleEnabled(s, i, s.ops[i], m)
    case FinishOrder(user, x) => x in s.orders && s.orders[x].user == user && s.orders[x].status == Paid
    case ClaimTask(w, t, readAt, _) =>
      w != "" && readAt <= s.clock && t in s.tasks && T.Claimable(s.tasks[t].lease, readAt)
    case OnRepair(i, m) => i in s.ops && s.ops[i].RepairOp? && RepairEnabled(s, i, s.ops[i], m)
    case Deliver(i, call) => (i, call) in s.sent
    case Crash(i) => i in s.ops
    case ManualTask(x, a) => x in s.orders
    case WorkOutbox(x, _) => x in s.outbox
    case Tick(now) => s.clock <= now
    case _ => true
  }

  ghost predicate CreateEnabled(s: State, i: nat, op: Op, m: CreateMove)
    requires op.CreateOp?
  {
    var x := op.order;
    match m
    case ReserveReplied(id) =>
      && op.create == AwaitReserve && x in s.orders
      && (i, ReserveCall(x, op.reservation, s.orders[x].lines), id) in s.granted
    case ReserveErrored => op.create == AwaitReserve
    case FailedWritten(_) => op.create == WriteFailed
    case PendingCommitted => op.create.CommitPending? && StatusOf(s, x) == Some(Reserving) && x !in s.outbox
    case PendingAborted => op.create.CommitPending?
    case UndoReturned(released) =>
      op.create.AwaitUndo? && (released ==> exists id :: (i, SettleCall(x, op.create.id, L.Released), id) in s.granted)
    case UndoneWritten(_) => op.create.WriteUndone?
  }

  ghost predicate SettleEnabled(s: State, i: nat, op: Op, m: SettleMove)
    requires op.SettleOp?
  {
    match m
    case Entered => op.settle == Enter && StatusOf(s, op.order) == Some(Pending)
    case EnterMissed => op.settle == Enter
    case SettleReplied => op.settle == AwaitSettle && exists id :: (i, SettleCallOf(op), id) in s.granted
    case SettleErrored => op.settle == AwaitSettle
    case WrittenBack(_) => op.settle == WriteBack
    case FinalCommitted => op.settle == CommitFinal && StatusOf(s, op.order) == Some(Transient(op.intent))
    case FinalAborted => op.settle == CommitFinal
    case ReconciliationWritten(_) => op.settle == WriteReconciliation
  }

  ghost predicate RepairEnabled(s: State, i: nat, op: Op, m: RepairMove)
    requires op.RepairOp?
  {
    match m
    case OrderLoaded => op.repair == LoadOrder
    case LoadErrored => op.repair == LoadOrder
    case RepairReplied => op.repair == AwaitRepair && exists id :: (i, RepairCallOf(op), id) in s.granted
    case RepairErrored => op.repair == AwaitRepair
    case RepairCommitted =>
      && op.repair == CommitRepair && !op.action.Unsupported?
      && StatusOf(s, op.order) in {Some(ReconciliationRequired), Some(Target(op.action))}
      && op.task in s.tasks && s.tasks[op.task].lease.owner == op.worker
    case RepairAborted(mismatch) =>
      op.repair == CommitRepair &&
      (mismatch ==>
          !op.action.Unsupported? && StatusOf(s, op.order) !in {Some(ReconciliationRequired), Some(Target(op.action))})
    case MarkedFailed(next, _) => op.repair == MarkFailed
    case MarkedUnresolved(_) => op.repair == MarkUnresolved
  }

  // ----- what a step does

  function Next(s: State, e: Event): State
    requires Enabled(s, e)
  {
    match e
    case Insert(user, key, id, lines) =>
      var x, i := s.nextOrder, s.nextOp;
      s.(orders := s.orders[x := Order(user, key, Reserving, id, lines)],
         ops := s.ops[i := CreateOp(x, id, AwaitReserve)],
         sent := s.sent + {(i, ReserveCall(x, id, lines))},
         nextOrder := x + 1, nextOp := i + 1)
    case OnCreate(i, m) => Apply(s, i, s.ops[i], CreateEffect(s.ops[i], m))
    case Begin(intent, _, x) =>
      s.(ops := s.ops[s.nextOp := SettleOp(intent, x, s.orders[x].reservation, Enter)], nextOp := s.nextOp + 1)
    case OnSettle(i, m) => Apply(s, i, s.ops[i], SettleEffect(s, s.ops[i], m))
    case FinishOrder(_, x) => s.(orders := s.orders[x := s.orders[x].(status := Finished)])
    case ClaimTask(w, t, readAt, duration) =>
      var task := s.tasks[t];
      s.(ops := s.ops[s.nextOp := RepairOp(w, t, task.order, task.action, "", LoadOrder)],
         nextOp := s.nextOp + 1,
         tasks := s.tasks[t := task.(lease := T.Take(Lease(duration), task.lease, w, readAt))])
    case OnRepair(i, m) => Apply(s, i, s.ops[i], RepairEffect(s, s.ops[i], m))
    case Deliver(i, call) =>
      var (tables, reply) := Serve(s.inventory, call);
      s.(inventory := tables, granted := if reply.Granted? then s.granted + {(i, call, reply.id)} else s.granted)
    case Crash(i) => Apply(s, i, s.ops[i], Ends(None))
    case ManualTask(x, a) => AddTask(s, x, a, T.Pending).(manual := true)
    case InitStock(p, q) => s.(inventory := L.Init(s.inventory, p, q).0)
    case AddStock(p, q) => s.(inventory := L.Add(s.inventory, p, q).0)
    case WorkOutbox(x, st) => s.(outbox := s.outbox[x := st])
    case Tick(now) => s.(clock := now)
  }

  function Serve(t: L.Tables, call: Call): (L.Tables, L.Reply) {
    match call
    case ReserveCall(x, id, lines) => L.Reserve(t, x, id, lines)
    case SettleCall(_, id, target) =>
      if target == L.Held then (t, L.Declined(L.InvalidTransition)) else L.Transition(t, id, target)
  }

  /** Create: insert and reserve; on an error fail the order; otherwise commit Pending with the
      timeout row, or undo the reservation and record how that went. */
  function CreateEffect(op: Op, m: CreateMove): Effect
    requires op.CreateOp?
    requires m.PendingAborted? || m.PendingCommitted? ==> op.create.CommitPending?
    requires m.UndoneWritten? ==> op.create.WriteUndone?
  {
    match m
    case ReserveReplied(id) => Goes(op.(create := CommitPending(id)))
    case ReserveErrored => Goes(op.(create := WriteFailed))
    case FailedWritten(ok) => Ends(if ok then Some(Failed) else None)
    case PendingCommitted => Ends(Some(Pending)).(adopt := Some(op.create.id), outbox := OpenOutbox)
    case PendingAborted =>
      Goes(op.(create := AwaitUndo(op.create.id))).(send := Some(SettleCall(op.order, op.create.id, L.Released)))
    case UndoReturned(released) => Goes(op.(create := WriteUndone(released)))
    case UndoneWritten(ok) =>
      Ends(if !ok then None else if op.create.released then Some(Failed) else Some(ReconciliationRequired))
  }

  /** Pay and Cancel: compare-and-set to the transient status, settle the reservation, then
      compare-and-set to the final status, back to Pending, or ask for reconciliation. */
  function SettleEffect(s: State, op: Op, m: SettleMove): Effect
    requires op.SettleOp?
  {
    match m
    case Entered =>
      Goes(op.(settle := AwaitSettle)).(write := Some(Transient(op.intent)), send := Some(SettleCallOf(op)))
    case EnterMissed => Ends(None)
    case SettleReplied => Goes(op.(settle := CommitFinal))
    case SettleErrored => Goes(op.(settle := WriteBack))
    case WrittenBack(ok) =>
      Ends(if ok && StatusOf(s, op.order) == Some(Transient(op.intent)) then Some(Pending) else None)
    case FinalCommitted => Ends(Some(Final(op.intent))).(outbox := CloseOutbox)
    case FinalAborted => Goes(op.(settle := WriteReconciliation))
    case ReconciliationWritten(ok) => Ends(if ok then Some(ReconciliationRequired) else None)
  }

  /** A reconciliation worker on a claimed task. */
  function RepairEffect(s: State, op: Op, m: RepairMove): Effect
    requires op.RepairOp?
    requires m.RepairCommitted? ==> !op.action.Unsupported?
  {
    match m
    case OrderLoaded =>
      if op.order !in s.orders || op.action.Unsupported? then Goes(op.(repair := MarkUnresolved))
      else
        var o := s.orders[op.order];
        if o.status == Target(op.action) then Goes(op.(repair := CommitRepair))
        else if o.status != ReconciliationRequired then Goes(op.(repair := MarkUnresolved))
        else
          var loaded := op.(reservation := o.reservation, repair := AwaitRepair);
          Goes(loaded).(send := Some(RepairCallOf(loaded)))
    case LoadErrored => Goes(op.(repair := MarkFailed))
    case RepairReplied => Goes(op.(repair := CommitRepair))
    case RepairErrored => Goes(op.(repair := MarkFailed))
    case RepairCommitted =>
      Effect(None,
             if StatusOf(s, op.order) == Some(ReconciliationRequired) then Some(Target(op.action)) else None,
             None, None,
             if op.action == ReleaseInventoryAndFail then KeepOutbox else CloseOutbox, Some((T.Completed, s.clock)))
    case RepairAborted(mismatch) => Goes(op.(repair := if mismatch then MarkUnresolved else MarkFailed))
    case MarkedFailed(next, ok) => Ends(None).(mark := if ok then Some((T.Failed, next)) else None)
    case MarkedUnresolved(ok) => Ends(None).(mark := if ok then Some((T.Unresolved, s.clock)) else None)
  }

  // ----- runs

  ghost predicate Runs(s: State, es: seq<Event>)
    decreases |es|
  {
    es == [] || (Enabled(s, es[0]) && Runs(Next(s, es[0]), es[1..]))
  }

  ghost function Run(s: State, es: seq<Event>): State
    requires Runs(s, es)
    decreases |es|
  {
    if es == [] then s else Run(Next(s, es[0]), es[1..])
  }
}
