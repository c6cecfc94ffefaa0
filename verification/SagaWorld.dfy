/** What an operation of order-service or of a reconciliation worker lives through: the others are at work
    whenever it pauses, and any of its statements may fail. Its answer is decided by what it finds. */
module SagaWorld {
  import opened Wrappers
  import opened Items
  import opened Saga
  import opened SagaInvariant
  import opened SagaSteps
  import opened SagaTheorems
  import opened SagaProgress
  import L = Ledger
  import LP = LedgerProof

  // ----- the others

  /** A run in which nobody acts on behalf of operation `me`. */
  ghost predicate Foreign(es: seq<Event>, me: nat) { forall i | 0 <= i < |es| :: Actor(es[i]) != Some(me) }

  ghost predicate Interlude(s: State, me: nat, es: seq<Event>, s': State) {
    Runs(s, es) && Foreign(es, me) && Run(s, es) == s'
  }

  /** From `s` the system can have come to `s'` while operation `me` stood still. */
  ghost predicate Meanwhile(s: State, me: nat, s': State) { exists es :: Interlude(s, me, es, s') }

  /** What the rest of the system does while operation `me` pauses for the k-th time. */
  type World = (nat, nat, State) -> State

  ghost predicate Possible(world: World) { forall k, me, s :: Meanwhile(s, me, world(k, me, s)) }

  lemma {:induction false} KeepsOp(s: State, e: Event, me: nat)
    requires Enabled(s, e) && Actor(e) != Some(me) && me in s.ops && me < s.nextOp
    ensures me in Next(s, e).ops && Next(s, e).ops[me] == s.ops[me] && me < Next(s, e).nextOp
  {
  }

  lemma {:induction false} RunKeepsOp(s: State, es: seq<Event>, me: nat)
    requires Runs(s, es) && Foreign(es, me) && me in s.ops && me < s.nextOp
    ensures me in Run(s, es).ops && Run(s, es).ops[me] == s.ops[me] && me < Run(s, es).nextOp
    decreases |es|
  {
    if es != [] {
      KeepsOp(s, es[0], me);
      assert Foreign(es[1..], me);
      RunKeepsOp(Next(s, es[0]), es[1..], me);
    }
  }

  /** Orders keep everything but their status. */
  ghost predicate SameOrders(s: State, s': State) {
    forall x | x in s.orders :: x in s'.orders && s'.orders[x] == s.orders[x].(status := s'.orders[x].status)
  }

  lemma {:induction false} RunKeepsOrders(s: State, es: seq<Event>)
    requires Inv(s) && Runs(s, es)
    ensures SameOrders(s, Run(s, es))
    decreases |es|
  {
    if es != [] {
      var s' := Next(s, es[0]);
      StepInv(s, es[0]);
      forall x | x in s.orders ensures OrderMoves(s, es[0], s', x) { StepMovesOrder(s, es[0], x); }
      RunKeepsOrders(s', es[1..]);
    }
  }

  lemma {:induction false} OwnerCommits(s: State, i: nat)
    requires Reachable(s) && i in s.ops && Owned(s.ops[i]).Some?
    ensures s.ops[i].CreateOp? && s.ops[i].create.CommitPending? ==> Enabled(s, OnCreate(i, PendingCommitted))
    ensures s.ops[i].SettleOp? && s.ops[i].settle == CommitFinal ==> Enabled(s, OnSettle(i, FinalCommitted))
  {
    OwnerFindsItsStatus(s, i, i);
  }

  // ----- what an operation finds

  /** Statement `e` was run in `s` and led to `s'`. */
  ghost predicate Came(s: State, e: Event, s': State) { Enabled(s, e) && s' == Next(s, e) }

  /** Statement `e` was run in `s`, and `s'` is what operation `me` finds after its k-th pause. */
  ghost predicate Found(s: State, e: Event, world: World, k: nat, me: nat, s': State) {
    Enabled(s, e) && s' == world(k, me, Next(s, e))
  }

  predicate Granted(s: State, i: nat, call: Call) { exists g | g in s.granted :: g.0 == i && g.1 == call }

  /** The request whose reply an operation waits for. */
  function Awaited(s: State, op: Op): Option<Call> {
    match op
    case CreateOp(x, id, AwaitReserve) => if x in s.orders then Some(ReserveCall(x, id, s.orders[x].lines)) else None
    case CreateOp(x, _, AwaitUndo(id)) => Some(SettleCall(x, id, L.Released))
    case SettleOp(_, _, _, AwaitSettle) => Some(SettleCallOf(op))
    case RepairOp(_, _, _, _, _, AwaitRepair) => Some(RepairCallOf(op))
    case _ => None
  }

  /** The state after the request `me` waits for, if there is one, has been delivered. */
  ghost function Conveyed(s: State, me: nat): State {
    if me !in s.ops || Awaited(s, s.ops[me]) == None then s
    else
      var e := Deliver(me, Awaited(s, s.ops[me]).value);
      if Enabled(s, e) then Next(s, e) else s
  }

  /** A world in which nothing happens but that an operation's own request is delivered. */
  ghost predicate Courier(world: World) { forall k, me, s :: world(k, me, s) == Conveyed(s, me) }

  lemma {:induction false} CourierIsPossible(world: World)
    requires Courier(world)
    ensures Possible(world)
  {
    forall k, me, s ensures Meanwhile(s, me, world(k, me, s)) {
      assert world(k, me, s) == Conveyed(s, me);
      if Conveyed(s, me) == s {
        assert Interlude(s, me, [], s);
      } else {
        var e := Deliver(me, Awaited(s, s.ops[me]).value);
        RunOne(s, e, []);
        assert Interlude(s, me, [e] + [], Conveyed(s, me));
      }
    }
  }

  ghost predicate Flawless(fails: nat -> bool) { forall k :: !fails(k) }

  // ----- the answers

  /** `Unread`: everything was written, and reading the order back failed. */
  datatype Answer = Ok | Unread | NotFound | InvalidState | DatabaseError | CallFailed | Undone | CompensationRequired

  /** `Panicked`: the pricing guard divided by zero. */
  datatype Created = New(order: int) | Existing(order: int) | Invalid | Panicked | Failure(answer: Answer)

  /** How the processing of a task ended. */
  datatype Processed = Closed | GivenUp | Retried | LeaseLost | NotWritten

  // ----- Pay and Cancel

  /** Why a Pay or Cancel of a pending order is answered as it is. `entry` is what it finds before its first
      compare-and-set, and `reply` what it finds when inventory-service has had its time. */
  ghost predicate SettleCause(entry: State, reply: State, me: nat, intent: Intent, x: int, id: string, r: Answer,
                              fails: nat -> bool) {
    if fails(0) then r == DatabaseError
    else if StatusOf(entry, x) != Some(Pending) then r == InvalidState
    else if fails(1) || !Granted(reply, me, SettleCall(x, id, Outcome(intent))) then r == CallFailed
    else r == if fails(3) then CompensationRequired else if fails(6) then Unread else Ok
  }

  /** Where `entry` and `reply` come from. */
  ghost predicate SettlePath(s: State, begin: Event, me: nat, x: int, world: World, fails: nat -> bool, entry: State,
                             reply: State) {
    && Found(s, begin, world, 0, me, entry)
    && (!fails(0) && StatusOf(entry, x) == Some(Pending) ==> Found(entry, OnSettle(me, Entered), world, 1, me, reply))
  }

  /** A settling request is granted by its delivery exactly if the stock is held or settled that way. */
  lemma {:induction false} GrantedIffGrantable(s: State, me: nat, x: int, target: L.ReservationStatus)
    requires Inv(s) && x in s.orders && ReservationOf(s, x).Some? && target != L.Held
    requires (me, SettleCall(x, s.orders[x].reservation, target)) in s.sent
    ensures var c := SettleCall(x, s.orders[x].reservation, target);
      Granted(Next(s, Deliver(me, c)), me, c) <==> Grantable(s, x, target)
  {
    var id := s.orders[x].reservation;
    var c := SettleCall(x, id, target);
    var s' := Next(s, Deliver(me, c));
    TransitionAnswers(s.inventory, id, target);
    if Grantable(s, x, target) {
      assert (me, c, L.Transition(s.inventory, id, target).1.id) in s'.granted;
    } else {
      assert s'.granted == s.granted;
      assert forall g | g in s.granted :: GrantOk(s, g.1, g.2);
    }
  }

  /** An operation that waits for no reply finds everything as it left it. */
  lemma {:induction false} CourierIdle(world: World, k: nat, me: nat, s: State)
    requires Courier(world) && (me !in s.ops || Awaited(s, s.ops[me]) == None)
    ensures world(k, me, s) == s
  {
    assert world(k, me, s) == Conveyed(s, me);
  }

  /** And one whose request is on its way finds it delivered, once. */
  lemma {:induction false} CourierDelivers(world: World, k: nat, me: nat, s: State, c: Call)
    requires Courier(world) && me in s.ops && Awaited(s, s.ops[me]) == Some(c) && (me, c) in s.sent
    ensures Enabled(s, Deliver(me, c)) && world(k, me, s) == Next(s, Deliver(me, c))
  {
    assert world(k, me, s) == Conveyed(s, me);
  }

  /** After the first compare-and-set. */
  lemma {:induction false} SettleEntered(s: State, me: nat, op: Op)
    requires Reachable(s) && me in s.ops && s.ops[me] == op && op.SettleOp? && op.settle == Enter
    requires StatusOf(s, op.order) == Some(Pending)
    ensures var e := OnSettle(me, Entered);
      && Enabled(s, e)
      && var s', c := Next(s, e), SettleCall(op.order, op.reservation, Outcome(op.intent));
         && Inv(s') && s'.orders == s.orders[op.order := s.orders[op.order].(status := Transient(op.intent))]
         && s'.inventory == s.inventory && s.orders[op.order].reservation == op.reservation
         && ReservationOf(s', op.order).Some?
         && me in s'.ops && Awaited(s', s'.ops[me]) == Some(c) && (me, c) in s'.sent
  {
    var e := OnSettle(me, Entered);
    ReachableInv(s);
    assert OpOk(s, op);
    ApplyShape(s, me, op, SettleEffect(s, op, Entered));
    StepReachable(s, e);
    ReachableInv(Next(s, e));
    assert OpOk(Next(s, e), Next(s, e).ops[me]);
  }

  /** In a world that only delivers its request, a Pay or Cancel gets as far as the reply, which is a grant
      exactly if the stock can be settled that way. */
  lemma {:induction false} CourierSettles(s: State, begin: Event, intent: Intent, x: int, world: World,
                                          fails: nat -> bool, entry: State, reply: State)
    requires Reachable(s) && x in s.orders && s.orders[x].status == Pending
    requires begin.Begin? && begin.intent == intent && begin.order == x
    requires Flawless(fails) && Courier(world) && SettlePath(s, begin, s.nextOp, x, world, fails, entry, reply)
    ensures StatusOf(entry, x) == Some(Pending)
    ensures Granted(reply, s.nextOp, SettleCall(x, s.orders[x].reservation, Outcome(intent))) <==>
      Grantable(s, x, Outcome(intent))
  {
    var me := s.nextOp;
    StepReachable(s, begin);
    CourierIdle(world, 0, me, Next(s, begin));
    SettleEntered(entry, me, entry.ops[me]);
    var s2 := Next(entry, OnSettle(me, Entered));
    GrantedIffGrantable(s2, me, x, Outcome(intent));
    CourierDelivers(world, 1, me, s2, SettleCall(x, s.orders[x].reservation, Outcome(intent)));
  }

  // ----- Create and the reconciliation worker

  /** What an operation finds on its way: after its first pause, when inventory-service has had its time,
      before its closing transaction, and before its last statement or the last reply it waits for. */
  datatype Course = Course(first: State, reply: State, commit: State, last: State)

  predicate Unacceptable(user: int, key: string) { user <= 0 || key == "" || |key| > 64 }

  ghost predicate Taken(s: State, user: int, key: string) {
    exists x :: x in s.orders && s.orders[x].user == user && s.orders[x].key == key
  }

  /** A new request that can be priced. */
  ghost predicate Orderable(s: State, user: int, key: string, items: seq<Line>, catalog: map<int, Product>) {
    !Unacceptable(user, key) && !Taken(s, user, key) && WellFormed(items) && Priceable(catalog, Merge(items))
  }

  /** Why a Create that has got as far as its insert is answered as it is. */
  ghost predicate ReserveCause(c: Course, me: nat, x: int, insert: Event, r: Created, fails: nat -> bool)
    requires insert.Insert?
  {
    if fails(3) || !Granted(c.reply, me, ReserveCall(x, insert.id, insert.lines)) then r == Failure(CallFailed)
    else if fails(5) then
      r == Failure(if fails(6) || !Granted(c.last, me, SettleCall(x, insert.id, L.Released)) then CompensationRequired
                   else Undone)
    else r == if fails(8) then Failure(Unread) else New(x)
  }

  /** Where `c` comes from after the insert. */
  ghost predicate ReservePath(c: Course, me: nat, x: int, insert: Event, world: World, fails: nat -> bool)
    requires insert.Insert?
  {
    !fails(3) && Granted(c.reply, me, ReserveCall(x, insert.id, insert.lines)) ==>
      && Found(c.reply, OnCreate(me, ReserveReplied(insert.id)), world, 3, me, c.commit)
      && (fails(5) ==> Found(c.commit, OnCreate(me, PendingAborted), world, 4, me, c.last))
  }

  /** Why a Create is answered as it is. `insert` is the statement that adds the order, if it comes to that. */
  ghost predicate CreateCause(s: State, user: int, key: string, items: seq<Line>, catalog: map<int, Product>,
                              c: Course, insert: Event, world: World, fails: nat -> bool, r: Created)
    requires insert.Insert?
  {
    if !fails(0) && Orderable(s, user, key, items, catalog) then InsertCause(c, user, key, insert, world, fails, r)
    else ScreenCause(s, user, key, items, catalog, fails, r)
  }

  /** Why a request does not come to an insert. */
  ghost predicate ScreenCause(s: State, user: int, key: string, items: seq<Line>, catalog: map<int, Product>,
                              fails: nat -> bool, r: Created) {
    if Unacceptable(user, key) then r == Invalid
    else if fails(0) then r == Failure(DatabaseError)
    else if Taken(s, user, key) then r.Existing?
    else r == if WellFormed(items) && Panics(catalog, Merge(items)) then Panicked else Invalid
  }

  ghost predicate InsertCause(c: Course, user: int, key: string, insert: Event, world: World, fails: nat -> bool,
                              r: Created)
    requires insert.Insert?
  {
    if Taken(c.first, user, key) then if fails(2) then r == Failure(DatabaseError) else r.Existing?
    else if fails(1) then r == Failure(DatabaseError)
    else
      && Found(c.first, insert, world, 1, c.first.nextOp, c.reply)
      && ReserveCause(c, c.first.nextOp, c.first.nextOrder, insert, r, fails)
      && ReservePath(c, c.first.nextOp, c.first.nextOrder, insert, world, fails)
  }

  /** What the answer says of the order `x` that was inserted. */
  ghost predicate CreateTold(s: State, x: int, insert: Event, r: Created, fails: nat -> bool)
    requires insert.Insert?
  {
    && x in s.orders && s.orders[x] == Order(insert.user, insert.key, s.orders[x].status, insert.id, insert.lines)
    && match r
       case New(y) => y == x && s.orders[x].status == Pending && ReservationOf(s, x).Some?
       case Failure(Unread) => s.orders[x].status == Pending && ReservationOf(s, x).Some?
       case Failure(CallFailed) => s.orders[x].status == if fails(4) then Reserving else Failed
       case Failure(Undone) =>
         s.orders[x].status == (if fails(7) then Reserving else Failed) && ReservationOf(s, x) == Some(L.Released)
       case Failure(CompensationRequired) =>
         s.orders[x].status == if fails(7) then Reserving else ReconciliationRequired
       case _ => false
  }

  /** After the insert. */
  lemma {:induction false} Inserted(s: State, insert: Event)
    requires Reachable(s) && insert.Insert? && Enabled(s, insert)
    ensures var me, x, s' := s.nextOp, s.nextOrder, Next(s, insert);
      && Inv(s') && s'.inventory == s.inventory && ReservationOf(s', x) == None
      && x in s'.orders && s'.orders[x] == Order(insert.user, insert.key, Reserving, insert.id, insert.lines)
      && me in s'.ops && Awaited(s', s'.ops[me]) == Some(ReserveCall(x, insert.id, insert.lines))
      && (me, ReserveCall(x, insert.id, insert.lines)) in s'.sent
      && !Granted(s', me, ReserveCall(x, insert.id, insert.lines))
  {
    StepReachable(s, insert);
    ReachableInv(s);
    ReachableInv(Next(s, insert));
    assert s.nextOrder !in s.orders by { assert s.nextOrder in s.orders ==> OrderOk(s, s.nextOrder); }
    assert forall g | g in s.granted :: GrantOk(s, g.1, g.2);
  }

  /** A request to reserve that has not been granted is granted by its delivery exactly if its lines can be
      served, and its stock is then held. */
  lemma {:induction false} ReservedIffServable(s: State, me: nat, x: int)
    requires Inv(s) && x in s.orders && ReservationOf(s, x) == None
    requires var c := ReserveCall(x, s.orders[x].reservation, s.orders[x].lines);
             (me, c) in s.sent && !Granted(s, me, c)
    ensures var c := ReserveCall(x, s.orders[x].reservation, s.orders[x].lines);
      var s' := Next(s, Deliver(me, c));
      && (Granted(s', me, c) <==> LP.Servable(s.inventory.rows, s.orders[x].lines))
      && (LP.Servable(s.inventory.rows, s.orders[x].lines) ==> ReservationOf(s', x) == Some(L.Held))
  {
    var c := ReserveCall(x, s.orders[x].reservation, s.orders[x].lines);
    var s' := Next(s, Deliver(me, c));
    ReserveAnswers(s, x);
    if LP.Servable(s.inventory.rows, c.lines) { assert (me, c, c.id) in s'.granted; }
  }

  ghost predicate IsHeld(t: L.Tables, id: string) { id in t.reservations && t.reservations[id].status == L.Held }

  /** The insert and the delivery of the request. */
  lemma {:induction false} CourierReserves(s: State, insert: Event, world: World, reply: State)
    requires Reachable(s) && insert.Insert? && Courier(world) && Found(s, insert, world, 1, s.nextOp, reply)
    ensures var me, x, lines := s.nextOp, s.nextOrder, insert.lines;
      && (Granted(reply, me, ReserveCall(x, insert.id, lines)) <==> LP.Servable(s.inventory.rows, lines))
      && x in reply.orders && me in reply.ops && reply.ops[me].order == x
      && (LP.Servable(s.inventory.rows, lines) ==> IsHeld(reply.inventory, insert.id))
  {
    var me, x, s' := s.nextOp, s.nextOrder, Next(s, insert);
    Inserted(s, insert);
    CourierDelivers(world, 1, me, s', ReserveCall(x, insert.id, insert.lines));
    ReservedIffServable(s', me, x);
  }

  /** In a world that only delivers its requests, a Create that is not refused before succeeds exactly if its
      lines can be served, and its stock is then held. */
  lemma {:induction false} CourierCreates(s: State, user: int, key: string, items: seq<Line>,
                                          catalog: map<int, Product>, c: Course, insert: Event, world: World,
                                          fails: nat -> bool, r: Created)
    requires Reachable(s) && insert.Insert? && insert.lines == Merge(items)
    requires Flawless(fails) && Courier(world) && c.first == world(0, s.nextOp, s)
    requires Orderable(s, user, key, items, catalog)
    requires CreateCause(s, user, key, items, catalog, c, insert, world, fails, r)
    ensures c.first == s
    ensures r == if LP.Servable(s.inventory.rows, Merge(items)) then New(s.nextOrder) else Failure(CallFailed)
    ensures r.New? ==> IsHeld(c.commit.inventory, insert.id)
  {
    NobodyYet(s);
    CourierIdle(world, 0, s.nextOp, s);
    assert !Panics(catalog, Merge(items));
    CourierReserves(s, insert, world, c.reply);
    if r.New? { ReplyTaken(c.reply, s.nextOp, s.nextOrder, insert.id, world, c.commit); }
  }

  lemma {:induction false} NobodyYet(s: State)
    requires Reachable(s)
    ensures s.nextOp !in s.ops
  {
    ReachableInv(s);
  }

  lemma {:induction false} ReplyTaken(s: State, me: nat, x: int, id: string, world: World, commit: State)
    requires Courier(world) && Found(s, OnCreate(me, ReserveReplied(id)), world, 3, me, commit) && s.ops[me].order == x
    requires x in s.orders
    ensures commit.inventory == s.inventory
  {
    var e := OnCreate(me, ReserveReplied(id));
    ApplyShape(s, me, s.ops[me], CreateEffect(s.ops[me], ReserveReplied(id)));
    CourierIdle(world, 3, me, Next(s, e));
  }

  // ----- the reconciliation worker

  /** The order neither waits for reconciliation nor has reached what the action aims at, or the action is none. */
  ghost predicate Misfit(s: State, x: int, a: Action) {
    a.Unsupported? || (StatusOf(s, x) != Some(ReconciliationRequired) && StatusOf(s, x) != Some(Target(a)))
  }

  ghost predicate Waits(s: State, x: int, a: Action) {
    !a.Unsupported? && StatusOf(s, x) == Some(ReconciliationRequired)
  }

  ghost function RepairRequest(s: State, x: int, a: Action): Call {
    SettleCall(x, if x in s.orders then s.orders[x].reservation else "", Asks(a))
  }

  predicate Leases(s: State, worker: string, t: nat) { t in s.tasks && s.tasks[t].lease.owner == worker }

  /** And the transaction closes order and task. */
  ghost predicate Succeeds(c: Course, worker: string, t: nat, x: int, a: Action, fails: nat -> bool) {
    !fails(2) && !Misfit(c.commit, x, a) && Leases(c.commit, worker, t)
  }

  /** A task that is not closed is marked, if the worker still leases it: given up if there is no hope. */
  predicate MarkCause(last: State, worker: string, t: nat, hopeless: bool, r: Processed, fails: nat -> bool) {
    if fails(3) then r == NotWritten
    else if !Leases(last, worker, t) then r == LeaseLost
    else r == if hopeless then GivenUp else Retried
  }

  /** The closing transaction, and the mark if it does not succeed. */
  ghost predicate CloseCause(c: Course, me: nat, worker: string, t: nat, x: int, a: Action, world: World,
                             fails: nat -> bool, r: Processed) {
    if Succeeds(c, worker, t, x, a, fails) then r == Closed
    else
      var mismatch := !fails(2) && Misfit(c.commit, x, a);
      && Found(c.commit, OnRepair(me, RepairAborted(mismatch)), world, 3, me, c.last)
      && MarkCause(c.last, worker, t, mismatch, r, fails)
  }

  /** Why the processing of a task ends as it does. An order that waits is asked for at inventory-service, one at
      the target is closed at once, and any other means that the task does not fit. */
  ghost predicate TaskCause(c: Course, me: nat, worker: string, t: nat, x: int, a: Action, world: World,
                            fails: nat -> bool, r: Processed) {
    if fails(0) then
      && Found(c.first, OnRepair(me, LoadErrored), world, 3, me, c.last)
      && MarkCause(c.last, worker, t, false, r, fails)
    else if Misfit(c.first, x, a) then
      && Found(c.first, OnRepair(me, OrderLoaded), world, 3, me, c.last)
      && MarkCause(c.last, worker, t, true, r, fails)
    else if Waits(c.first, x, a) then
      && Found(c.first, OnRepair(me, OrderLoaded), world, 1, me, c.reply)
      && AskCause(c, me, worker, t, x, a, RepairRequest(c.first, x, a), world, fails, r)
    else
      && Found(c.first, OnRepair(me, OrderLoaded), world, 2, me, c.commit)
      && CloseCause(c, me, worker, t, x, a, world, fails, r)
  }

  /** The request to inventory-service: without a grant the task is left for another time. */
  ghost predicate AskCause(c: Course, me: nat, worker: string, t: nat, x: int, a: Action, call: Call, world: World,
                           fails: nat -> bool, r: Processed) {
    if fails(1) || !Granted(c.reply, me, call) then
      && Found(c.reply, OnRepair(me, RepairErrored), world, 3, me, c.last)
      && MarkCause(c.last, worker, t, false, r, fails)
    else
      && Found(c.reply, OnRepair(me, RepairReplied), world, 2, me, c.commit)
      && CloseCause(c, me, worker, t, x, a, world, fails, r)
  }

  /** Loading the order, and taking up or giving up a reply, changes nothing but where the worker stands. */
  lemma {:induction false} RepairStands(s: State, me: nat, op: Op, m: RepairMove)
    requires op.RepairOp? && me in s.ops && s.ops[me] == op && Enabled(s, OnRepair(me, m)) && op.order in s.orders
    requires m.OrderLoaded? || m.RepairReplied? || m.RepairErrored?
    ensures var s', f := Next(s, OnRepair(me, m)), RepairEffect(s, op, m);
      && s'.orders == s.orders && s'.tasks == s.tasks && s'.inventory == s.inventory
      && f.op.Some? && me in s'.ops && s'.ops[me] == f.op.value
      && (f.send.Some? ==> (me, f.send.value) in s'.sent)
  {
    ApplyShape(s, me, op, RepairEffect(s, op, m));
  }

  lemma {:induction false} CourierClaims(s: State, claim: Event, world: World, first: State)
    requires Reachable(s) && claim.ClaimTask? && Courier(world) && Found(s, claim, world, 0, s.nextOp, first)
    ensures var k := s.tasks[claim.task];
      && Reachable(first) && first.orders == s.orders && first.inventory == s.inventory && k.order in s.orders
      && Leases(first, claim.worker, claim.task) && s.nextOp in first.ops
      && first.ops[s.nextOp] == RepairOp(claim.worker, claim.task, k.order, k.action, "", LoadOrder)
  {
    ReachableInv(s);
    assert TaskOk(s, claim.task);
    StepReachable(s, claim);
    CourierIdle(world, 0, s.nextOp, Next(s, claim));
  }

  /** An order that does not wait is loaded and the worker goes on at once. */
  lemma {:induction false} CourierLoads(s: State, me: nat, op: Op, world: World, k: nat, s': State)
    requires op.RepairOp? && op.repair == LoadOrder && me in s.ops && s.ops[me] == op && op.order in s.orders
    requires Courier(world) && !Waits(s, op.order, op.action) && Found(s, OnRepair(me, OrderLoaded), world, k, me, s')
    ensures s'.orders == s.orders && s'.tasks == s.tasks
  {
    RepairStands(s, me, op, OrderLoaded);
    CourierIdle(world, k, me, Next(s, OnRepair(me, OrderLoaded)));
  }

  /** A worker that has loaded a waiting order has asked for its stock. */
  lemma {:induction false} RepairAsked(s: State, me: nat, op: Op)
    requires Reachable(s) && me in s.ops && s.ops[me] == op && op.RepairOp? && op.repair == LoadOrder
    requires Waits(s, op.order, op.action) && Enabled(s, OnRepair(me, OrderLoaded))
    ensures var s', x, call := Next(s, OnRepair(me, OrderLoaded)), op.order, RepairRequest(s, op.order, op.action);
      && Inv(s') && s'.orders == s.orders && s'.tasks == s.tasks && s'.inventory == s.inventory
      && ReservationOf(s, x).Some? && me in s'.ops && Awaited(s', s'.ops[me]) == Some(call) && (me, call) in s'.sent
      && s'.ops[me] == op.(reservation := s.orders[x].reservation, repair := AwaitRepair)
  {
    RepairStands(s, me, op, OrderLoaded);
    assert Inv(Next(s, OnRepair(me, OrderLoaded))) by {
      StepReachable(s, OnRepair(me, OrderLoaded));
      ReachableInv(Next(s, OnRepair(me, OrderLoaded)));
    }
    assert ReservationOf(s, op.order).Some? by { OrderAndStockAgree(s, op.order); }
  }

  lemma {:induction false} CourierAsks(s: State, me: nat, op: Op, world: World, reply: State)
    requires Reachable(s) && me in s.ops && s.ops[me] == op && op.RepairOp? && op.repair == LoadOrder
    requires Courier(world) && Waits(s, op.order, op.action) && Found(s, OnRepair(me, OrderLoaded), world, 1, me, reply)
    ensures var x, a := op.order, op.action;
      && (Granted(reply, me, RepairRequest(s, x, a)) <==> Grantable(s, x, Asks(a)))
      && reply.orders == s.orders && reply.tasks == s.tasks && me in reply.ops
      && reply.ops[me] == op.(reservation := s.orders[x].reservation, repair := AwaitRepair)
  {
    var x, a, s2 := op.order, op.action, Next(s, OnRepair(me, OrderLoaded));
    RepairAsked(s, me, op);
    GrantedIffGrantable(s2, me, x, Asks(a));
    CourierDelivers(world, 1, me, s2, RepairRequest(s, x, a));
  }

  lemma {:induction false} CourierAfterReply(c: Course, me: nat, worker: string, t: nat, x: int, a: Action,
                                             world: World, fails: nat -> bool, r: Processed, call: Call)
    requires Flawless(fails) && Courier(world) && Waits(c.reply, x, a) && Leases(c.reply, worker, t)
    requires me in c.reply.ops && c.reply.ops[me].RepairOp? && c.reply.ops[me].order == x
    requires AskCause(c, me, worker, t, x, a, call, world, fails, r)
    ensures r == if Granted(c.reply, me, call) then Closed else Retried
    ensures r == Retried ==> Waits(c.last, x, a)
  {
    var m := if Granted(c.reply, me, call) then RepairReplied else RepairErrored;
    RepairStands(c.reply, me, c.reply.ops[me], m);
    CourierIdle(world, if Granted(c.reply, me, call) then 2 else 3, me, Next(c.reply, OnRepair(me, m)));
  }

  /** In a world that only delivers its request, a worker closes a task whose order has reached the target, or
      waits and has stock that can be settled that way; it gives up one that does not fit its order; and it
      leaves one that inventory-service refuses for another time. */
  lemma {:induction false} CourierRepairs(s: State, claim: Event, c: Course, world: World, fails: nat -> bool,
                                          r: Processed)
    requires Reachable(s) && claim.ClaimTask? && Flawless(fails) && Courier(world)
    requires Found(s, claim, world, 0, s.nextOp, c.first)
    requires var k := s.tasks[claim.task];
      TaskCause(c, s.nextOp, claim.worker, claim.task, k.order, k.action, world, fails, r)
    ensures var x, a := s.tasks[claim.task].order, s.tasks[claim.task].action;
      && r == (if Misfit(s, x, a) then GivenUp
               else if Waits(s, x, a) && !Grantable(s, x, Asks(a)) then Retried else Closed)
      && (r == Retried ==> Waits(c.last, x, a))
  {
    var me, worker, t := s.nextOp, claim.worker, claim.task;
    var x, a := s.tasks[t].order, s.tasks[t].action;
    var op := RepairOp(worker, t, x, a, "", LoadOrder);
    CourierClaims(s, claim, world, c.first);
    if Waits(s, x, a) {
      CourierAsks(c.first, me, op, world, c.reply);
      CourierAfterReply(c, me, worker, t, x, a, world, fails, r, RepairRequest(c.first, x, a));
    } else {
      var k, s' := if Misfit(s, x, a) then 3 else 2, if Misfit(s, x, a) then c.last else c.commit;
      CourierLoads(c.first, me, op, world, k, s');
    }
  }
}
