/** Order-service and the reconciliation worker as they are written: one statement after another, any
    of which may fail, with everybody else at work in between. Each method is shown to take only steps
    of the saga, and its answer to mean what it says. */
module SagaService {
  import opened Wrappers
  import opened Items
  import opened Saga
  import opened SagaInvariant
  import opened SagaTheorems
  import opened SagaWorld
  import L = Ledger
  import LP = LedgerProof
  import T = Leases

  /** The steps a Pay or Cancel takes, by the answer it gives. */
  ghost function SettleStory(begin: Event, me: nat, r: Answer, fails: nat -> bool): seq<Event> {
    match r
    case Ok | Unread => [begin, OnSettle(me, Entered), OnSettle(me, SettleReplied), OnSettle(me, FinalCommitted)]
    case CallFailed => [begin, OnSettle(me, Entered), OnSettle(me, SettleErrored), OnSettle(me, WrittenBack(!fails(2)))]
    case CompensationRequired =>
      [begin, OnSettle(me, Entered), OnSettle(me, SettleReplied), OnSettle(me, FinalAborted),
       OnSettle(me, ReconciliationWritten(!fails(4)))]
    case _ => [begin, OnSettle(me, EnterMissed)]
  }

  /** What the answer to a Pay or Cancel says of the order: success, even unread, means the final status and
      settled stock; a call that failed leaves the order pending again; a request for reconciliation follows a
      fault only and finds the stock settled. */
  ghost predicate SettleTold(s: State, intent: Intent, x: int, r: Answer, fails: nat -> bool) {
    && (r == Ok || r == Unread ==>
          && StatusOf(s, x).Some? && Ended(Final(intent), s.orders[x].status)
          && ReservationOf(s, x) == Some(Outcome(intent)) && !fails(1))
    && (r == CompensationRequired ==> fails(3) && ReservationOf(s, x) == Some(Outcome(intent)))
    && (r == Ok ==> !fails(6)) && (r == Unread ==> fails(6))
    && (r == CallFailed ==> StatusOf(s, x) == Some(if fails(2) then Transient(intent) else Pending))
    && (r == CompensationRequired ==>
          StatusOf(s, x) == Some(if fails(4) then Transient(intent) else ReconciliationRequired))
  }

  /** The steps a Create takes once it has inserted its order. */
  ghost function CreateStory(insert: Event, me: nat, r: Created, fails: nat -> bool): seq<Event>
    requires insert.Insert?
  {
    var undo := [insert, OnCreate(me, ReserveReplied(insert.id)), OnCreate(me, PendingAborted)];
    match r
    case New(_) | Failure(Unread) => [insert, OnCreate(me, ReserveReplied(insert.id)), OnCreate(me, PendingCommitted)]
    case Failure(Undone) => undo + [OnCreate(me, UndoReturned(true)), OnCreate(me, UndoneWritten(!fails(7)))]
    case Failure(CompensationRequired) =>
      undo + [OnCreate(me, UndoReturned(false)), OnCreate(me, UndoneWritten(!fails(7)))]
    case _ => [insert, OnCreate(me, ReserveErrored), OnCreate(me, FailedWritten(!fails(4)))]
  }

  /** Either no order was inserted, or the answer tells the steps taken and what became of the order. */
  ghost predicate CreateEnds(s: State, first: State, insert: Event, own: seq<Event>, r: Created, fails: nat -> bool)
    requires insert.Insert?
  {
    && (own == [] ||
         (own == CreateStory(insert, first.nextOp, r, fails) && CreateTold(s, first.nextOrder, insert, r, fails)))
    && (r.New? || (r.Failure? && r.answer != DatabaseError) ==> own != [])
  }

  /** The step that ends the processing of a task, by the answer. */
  ghost predicate Closes(e: Event, r: Processed, retry: int, fails: nat -> bool) {
    && e.OnRepair?
    && match r
       case Closed => !fails(2) && e.repair == RepairCommitted
       case GivenUp => !fails(3) && e.repair == MarkedUnresolved(true)
       case Retried => !fails(3) && e.repair == MarkedFailed(retry, true)
       case LeaseLost => !fails(3) && (e.repair == MarkedUnresolved(true) || e.repair == MarkedFailed(retry, true))
       case NotWritten => fails(3) && (e.repair == MarkedUnresolved(false) || e.repair == MarkedFailed(retry, false))
  }

  /** What the answer says of the task: closed with its order at the target, given up, waiting for its
      next attempt, or somebody else's. */
  ghost predicate TaskTold(s: State, worker: string, t: nat, r: Processed, retry: int) {
    && t in s.tasks
    && match r
       case Closed => s.tasks[t].lease.status == T.Completed && Reached(s, s.tasks[t].order, s.tasks[t].action)
       case GivenUp => s.tasks[t].lease.status == T.Unresolved && s.tasks[t].lease.owner == ""
       case Retried =>
         s.tasks[t].lease == T.Row(T.Failed, s.tasks[t].lease.attempts, retry, "", None)
       case LeaseLost => s.tasks[t].lease.owner != worker
       case NotWritten => true
  }

  predicate Visible(s: State, caller: Option<int>, x: int) {
    x in s.orders && (caller.Some? ==> caller.value == s.orders[x].user)
  }

  class Deployment {
    var s: State
    ghost var own: seq<Event>  // the steps of the operation under way

    ghost predicate Valid() reads this { Reachable(s) }

    constructor ()
      ensures Valid()
    {
      s, own := START, [];
      new;
      assert Runs(START, []) && Run(START, []) == START;
    }

    /** One statement, or one message received. */
    method Step(e: Event)
      requires Valid() && Enabled(s, e)
      modifies this
      ensures Valid() && s == Next(old(s), e) && own == old(own) + [e]
    {
      StepReachable(s, e);
      s := Next(s, e);
      own := own + [e];
    }

    method Pause(world: World, k: nat, me: nat)
      requires Valid() && Possible(world)
      modifies this`s
      ensures Valid() && SameOrders(old(s), s) && s == world(k, me, old(s))
      ensures me in old(s).ops && me < old(s).nextOp ==> me in s.ops && s.ops[me] == old(s).ops[me] && me < s.nextOp
    {
      assert Meanwhile(s, me, world(k, me, s));
      ghost var es :| Interlude(s, me, es, world(k, me, s));
      StaysReachable(s, es);
      ReachableInv(s);
      RunKeepsOrders(s, es);
      if me in s.ops && me < s.nextOp { RunKeepsOp(s, es, me); }
      s := world(k, me, s);
    }

    /** A statement of a Pay or Cancel. */
    method ActSettle(me: nat, m: SettleMove)
      requires Valid() && Enabled(s, OnSettle(me, m))
      modifies this
      ensures Valid() && old(s).ops[me].order in old(s).orders
      ensures Shape(old(s), me, old(s).ops[me], SettleEffect(old(s), old(s).ops[me], m), s)
      ensures own == old(own) + [OnSettle(me, m)]
    {
      ReachableInv(s);
      assert OpOk(s, s.ops[me]);
      ApplyShape(s, me, s.ops[me], SettleEffect(s, s.ops[me], m));
      Step(OnSettle(me, m));
    }

    /** Pay and Cancel, and with `caller == None` the timeout's cancellation. An order that is not
        pending is answered for without a step; otherwise what was found decides the answer, and the answer
        tells the steps taken. The final compare-and-set is never found to miss: reconciliation is asked for
        only after a fault. Without faults the order is settled exactly if its stock can be. */
    method Settle(intent: Intent, caller: Option<int>, x: int, world: World, fails: nat -> bool)
      returns (r: Answer, ghost entry: State, ghost reply: State)
      requires Valid() && Possible(world) && (caller == None ==> intent == Cancel)
      modifies this
      ensures Valid()
      ensures fails(5) ==> r == DatabaseError && s == old(s) && own == []
      ensures r == NotFound <==> !fails(5) && !Visible(old(s), caller, x)
      ensures !fails(5) && Visible(old(s), caller, x) && old(s).orders[x].status != Pending ==>
        s == old(s) && own == [] && r == if s.orders[x].status == Final(intent) then Ok else InvalidState
      ensures !fails(5) && Visible(old(s), caller, x) && old(s).orders[x].status == Pending ==>
        && own == SettleStory(Begin(intent, caller, x), old(s).nextOp, r, fails)
        && SettleTold(s, intent, x, r, fails)
        && SettleCause(entry, reply, old(s).nextOp, intent, x, old(s).orders[x].reservation, r, fails)
        && SettlePath(old(s), Begin(intent, caller, x), old(s).nextOp, x, world, fails, entry, reply)
      ensures Flawless(fails) && Courier(world) && Visible(old(s), caller, x) && old(s).orders[x].status == Pending ==>
        r == if Grantable(old(s), x, Outcome(intent)) then Ok else CallFailed
      ensures r == Ok || r == Unread ==>
        StatusOf(s, x).Some? && Ended(Final(intent), s.orders[x].status) && ReservationOf(s, x) == Some(Outcome(intent))
    {
      own, entry, reply := [], s, s;
      if fails(5) { return DatabaseError, s, s; }
      if x !in s.orders || (caller.Some? && caller.value != s.orders[x].user) { return NotFound, s, s; }
      if s.orders[x].status == Final(intent) {
        OrderAndStockAgree(s, x);
        return Ok, s, s;
      }
      if s.orders[x].status != Pending { return InvalidState, s, s; }
      var me := s.nextOp;
      ghost var id := s.orders[x].reservation;
      Step(Begin(intent, caller, x));
      r, entry, reply := EnterSettlement(intent, x, me, world, fails, Begin(intent, caller, x), id);
      if Flawless(fails) && Courier(world) {
        CourierSettles(old(s), Begin(intent, caller, x), intent, x, world, fails, entry, reply);
      }
    }

    /** The first compare-and-set. */
    method EnterSettlement(intent: Intent, x: int, me: nat, world: World, fails: nat -> bool, ghost begin: Event,
                           ghost id: string)
      returns (r: Answer, ghost entry: State, ghost reply: State)
      requires Valid() && Possible(world) && StandsAt(me, intent, x, id, Enter) && own == [begin]
      modifies this
      ensures Valid() && own == SettleStory(begin, me, r, fails) && SettleTold(s, intent, x, r, fails)
      ensures SettleCause(entry, reply, me, intent, x, id, r, fails) && entry == world(0, me, old(s))
      ensures !fails(0) && StatusOf(entry, x) == Some(Pending) ==>
        Found(entry, OnSettle(me, Entered), world, 1, me, reply)
    {
      Pause(world, 0, me);
      entry, reply := s, s;
      if fails(0) || StatusOf(s, x) != Some(Pending) {
        Step(OnSettle(me, EnterMissed));
        r := if fails(0) then DatabaseError else InvalidState;
      } else {
        EnterOrder(intent, x, me, id);
        r, reply := AwaitSettlement(intent, x, me, world, fails, begin, id);
      }
    }

    method EnterOrder(intent: Intent, x: int, me: nat, ghost id: string)
      requires Valid() && StandsAt(me, intent, x, id, Enter) && StatusOf(s, x) == Some(Pending)
      modifies this
      ensures Valid() && StandsAt(me, intent, x, id, AwaitSettle) && own == old(own) + [OnSettle(me, Entered)]
      ensures Enabled(old(s), OnSettle(me, Entered)) && s == Next(old(s), OnSettle(me, Entered))
    {
      StepReachable(s, OnSettle(me, Entered));
      SettleEntered(s, me, s.ops[me]);
      Step(OnSettle(me, Entered));
    }

    /** Operation `me` is a settling one of order `x` that stands at `at`. */
    ghost predicate StandsAt(me: nat, intent: Intent, x: int, id: string, at: SettlePhase) reads this {
      me in s.ops && me < s.nextOp && s.ops[me] == SettleOp(intent, x, id, at)
    }

    /** The inventory call. */
    method AwaitSettlement(intent: Intent, x: int, me: nat, world: World, fails: nat -> bool, ghost begin: Event,
                           ghost id: string)
      returns (r: Answer, ghost reply: State)
      requires Valid() && Possible(world) && StandsAt(me, intent, x, id, AwaitSettle)
      requires own == [begin, OnSettle(me, Entered)]
      modifies this
      ensures Valid() && own == SettleStory(begin, me, r, fails) && SettleTold(s, intent, x, r, fails)
      ensures reply == world(1, me, old(s))
      ensures if fails(1) || !Granted(reply, me, SettleCall(x, id, Outcome(intent))) then r == CallFailed
        else r == if fails(3) then CompensationRequired else if fails(6) then Unread else Ok
    {
      Pause(world, 1, me);
      reply := s;
      if fails(1) || !Granted(s, me, SettleCallOf(s.ops[me])) {
        ActSettle(me, SettleErrored);
        r := WriteOrderBack(intent, x, me, world, fails, begin, id);
      } else {
        ActSettle(me, SettleReplied);
        r := CommitSettlement(intent, x, me, world, fails, begin, id);
      }
    }

    method WriteOrderBack(intent: Intent, x: int, me: nat, world: World, fails: nat -> bool, ghost begin: Event,
                          ghost id: string)
      returns (r: Answer)
      requires Valid() && Possible(world) && StandsAt(me, intent, x, id, WriteBack)
      requires own == [begin, OnSettle(me, Entered), OnSettle(me, SettleErrored)]
      modifies this
      ensures Valid() && r == CallFailed && own == SettleStory(begin, me, r, fails)
      ensures SettleTold(s, intent, x, r, fails)
    {
      Pause(world, 2, me);
      OwnerFindsItsStatus(s, me, me);
      ActSettle(me, WrittenBack(!fails(2)));
      r := CallFailed;
    }

    /** The closing transaction, or the request for reconciliation. */
    method CommitSettlement(intent: Intent, x: int, me: nat, world: World, fails: nat -> bool, ghost begin: Event,
                            ghost id: string)
      returns (r: Answer)
      requires Valid() && Possible(world) && StandsAt(me, intent, x, id, CommitFinal) && !fails(1)
      requires own == [begin, OnSettle(me, Entered), OnSettle(me, SettleReplied)]
      modifies this
      ensures Valid() && r == if fails(3) then CompensationRequired else if fails(6) then Unread else Ok
      ensures own == SettleStory(begin, me, r, fails)
      ensures SettleTold(s, intent, x, r, fails)
    {
      Pause(world, 3, me);
      if fails(3) {
        ActSettle(me, FinalAborted);
        r := AskReconciliation(intent, x, me, world, fails, begin, id);
      } else {
        CloseSettlement(intent, x, me, world, id);
        r := if fails(6) then Unread else Ok;
      }
    }

    method CloseSettlement(intent: Intent, x: int, me: nat, world: World, ghost id: string)
      requires Valid() && Possible(world) && StandsAt(me, intent, x, id, CommitFinal)
      modifies this
      ensures Valid() && own == old(own) + [OnSettle(me, FinalCommitted)]
      ensures StatusOf(s, x).Some? && Ended(Final(intent), s.orders[x].status)
      ensures ReservationOf(s, x) == Some(Outcome(intent))
    {
      OwnerCommits(s, me);
      ActSettle(me, FinalCommitted);
      FinalIsKept(intent, x, world);
    }

    method AskReconciliation(intent: Intent, x: int, me: nat, world: World, fails: nat -> bool, ghost begin: Event,
                             ghost id: string)
      returns (r: Answer)
      requires Valid() && Possible(world) && StandsAt(me, intent, x, id, WriteReconciliation) && fails(3)
      requires own == [begin, OnSettle(me, Entered), OnSettle(me, SettleReplied), OnSettle(me, FinalAborted)]
      modifies this
      ensures Valid() && r == CompensationRequired && own == SettleStory(begin, me, r, fails)
      ensures SettleTold(s, intent, x, r, fails)
    {
      Pause(world, 4, me);
      StockIsSettled(s, me);
      WriteReconciled(intent, x, me, !fails(4), id);
      r := CompensationRequired;
    }

    method WriteReconciled(intent: Intent, x: int, me: nat, ok: bool, ghost id: string)
      requires Valid() && StandsAt(me, intent, x, id, WriteReconciliation)
      modifies this
      ensures Valid() && own == old(own) + [OnSettle(me, ReconciliationWritten(ok))]
      ensures StatusOf(s, x) == Some(if ok then ReconciliationRequired else Transient(intent))
      ensures ReservationOf(s, x) == ReservationOf(old(s), x)
    {
      OwnerFindsItsStatus(s, me, me);
      ActSettle(me, ReconciliationWritten(ok));
    }

    /** Reading the order back, whatever the others do meanwhile. */
    method FinalIsKept(intent: Intent, x: int, world: World)
      requires Valid() && Possible(world) && StatusOf(s, x) == Some(Final(intent))
      modifies this`s
      ensures Valid() && StatusOf(s, x).Some? && Ended(Final(intent), s.orders[x].status)
      ensures ReservationOf(s, x) == Some(Outcome(intent))
    {
      ReachableInv(s);
      assert Meanwhile(s, s.nextOp, world(5, s.nextOp, s));
      ghost var es :| Interlude(s, s.nextOp, es, world(5, s.nextOp, s));
      StaysReachable(s, es);
      s := world(5, s.nextOp, s);
      EndedForEver(old(s), es, x);
      OrderAndStockAgree(s, x);
    }

    /** The timeout takes an order that is not pending, or not there, for done. */
    method TimeoutCancel(x: int, world: World, fails: nat -> bool) returns (acknowledged: bool, r: Answer)
      requires Valid() && Possible(world)
      modifies this
      ensures Valid()
      ensures acknowledged <==> r == Ok || r == InvalidState || r == NotFound
      ensures r == Ok || r == Unread ==> StatusOf(s, x) == Some(Cancelled) && ReservationOf(s, x) == Some(L.Released)
      ensures r == NotFound <==> !fails(5) && x !in old(s).orders
      ensures Flawless(fails) && Courier(world) && StatusOf(old(s), x) == Some(Pending) ==>
        r == if Grantable(old(s), x, L.Released) then Ok else CallFailed
    {
      ghost var entry, reply;
      r, entry, reply := Settle(Cancel, None, x, world, fails);
      acknowledged := r == Ok || r == InvalidState || r == NotFound;
    }

    /** Finishing an order; the read-back may fail after the write. */
    method Finish(user: int, x: int, fails: nat -> bool) returns (r: Answer)
      requires Valid()
      modifies this
      ensures Valid()
      ensures r == DatabaseError <==> fails(0)
      ensures r == Ok || r == Unread <==>
        !fails(0) && x in old(s).orders && old(s).orders[x].user == user && old(s).orders[x].status == Paid
      ensures r == Ok || r == Unread ==> (r == Unread <==> fails(1))
      ensures r == Ok || r == Unread ==> StatusOf(s, x) == Some(Finished) && ReservationOf(s, x) == Some(L.Confirmed)
      ensures r != Ok && r != Unread ==> s == old(s)
    {
      if fails(0) { return DatabaseError; }
      if x !in s.orders || s.orders[x].user != user || s.orders[x].status != Paid { return InvalidState; }
      Step(FinishOrder(user, x));
      OrderAndStockAgree(s, x);
      r := if fails(1) then Unread else Ok;
    }

    // ----- Create

    method ActCreate(me: nat, m: CreateMove)
      requires Valid() && Enabled(s, OnCreate(me, m))
      modifies this
      ensures Valid() && old(s).ops[me].order in old(s).orders
      ensures m.PendingAborted? || m.PendingCommitted? ==> old(s).ops[me].create.CommitPending?
      ensures m.UndoneWritten? ==> old(s).ops[me].create.WriteUndone?
      ensures Shape(old(s), me, old(s).ops[me], CreateEffect(old(s).ops[me], m), s)
      ensures own == old(own) + [OnCreate(me, m)]
    {
      ReachableInv(s);
      assert OpOk(s, s.ops[me]);
      ApplyShape(s, me, s.ops[me], CreateEffect(s.ops[me], m));
      Step(OnCreate(me, m));
    }

    /** The order a user has under a key. */
    method FindByKey(user: int, key: string) returns (r: Option<int>)
      ensures r.Some? ==> r.value in s.orders && s.orders[r.value].user == user && s.orders[r.value].key == key
      ensures r == None ==> forall x | x in s.orders :: s.orders[x].user != user || s.orders[x].key != key
    {
      var todo := s.orders.Keys;
      while todo != {}
        invariant todo <= s.orders.Keys
        invariant forall x | x in s.orders && x !in todo :: s.orders[x].user != user || s.orders[x].key != key
        decreases |todo|
      {
        var x := NextKey(todo);
        if s.orders[x].user == user && s.orders[x].key == key { return Some(x); }
        todo := todo - {x};
      }
      r := None;
    }

    /** Creating an order. `uuid` yields identifiers never used before. What was found decides the answer. An
        answer names an order of this user under this key; a new one consists of the requested items and has
        its stock stored. Once the order is inserted the steps taken are told by the answer. Without faults a
        request that can be priced creates its order exactly if it can be served. */
    method Create(user: int, key: string, items: seq<Line>, catalog: map<int, Product>, uuid: State -> string,
                  world: World, fails: nat -> bool)
      returns (r: Created, ghost c: Course, ghost insert: Event)
      requires Valid() && Possible(world) && TypedCatalog(catalog) && forall u :: FreshId(u, uuid(u))
      modifies this
      ensures Valid() && c.first == world(0, old(s).nextOp, old(s))
      ensures insert == Insert(user, key, uuid(c.first), Merge(items))
      ensures CreateCause(old(s), user, key, items, catalog, c, insert, world, fails, r)
      ensures r.Existing? || r.New? ==>
        r.order in s.orders && s.orders[r.order].user == user && s.orders[r.order].key == key
      ensures CreateEnds(s, c.first, insert, own, r, fails)
      ensures r.Invalid? || r.Panicked? ==> s == old(s) && own == []
      ensures Flawless(fails) && Courier(world) && Orderable(old(s), user, key, items, catalog) ==>
        if LP.Servable(old(s).inventory.rows, Merge(items))
        then r == New(old(s).nextOrder) && ReservationOf(s, r.order) == Some(L.Held)
        else r == Failure(CallFailed)
    {
      own := [];
      ghost var found := world(0, s.nextOp, s);
      c, insert := Course(found, found, found, found), Insert(user, key, uuid(found), Merge(items));
      var screened, lines := Screen(user, key, items, catalog, fails);
      if screened.Some? { return screened.value, c, insert; }
      Pause(world, 0, s.nextOp);
      r, c, insert := InsertOrder(user, key, items, lines, uuid, world, fails);
      if Flawless(fails) && Courier(world) {
        CourierCreates(old(s), user, key, items, catalog, c, insert, world, fails, r);
      }
    }

    /** What is settled before anything is written. */
    method Screen(user: int, key: string, items: seq<Line>, catalog: map<int, Product>, fails: nat -> bool)
      returns (r: Option<Created>, lines: seq<Line>)
      requires TypedCatalog(catalog)
      ensures r == None <==> !fails(0) && Orderable(s, user, key, items, catalog)
      ensures r == None ==> lines == Merge(items) && WellFormed(lines) && Ascending(lines) && Typed(lines)
      ensures r.Some? ==> ScreenCause(s, user, key, items, catalog, fails, r.value)
      ensures r.Some? && r.value.Existing? ==>
        var x := r.value.order; x in s.orders && s.orders[x].user == user && s.orders[x].key == key
    {
      lines := [];
      if Unacceptable(user, key) { return Some(Invalid), lines; }
      if fails(0) { return Some(Failure(DatabaseError)), lines; }
      var existing := FindByKey(user, key);
      if existing.Some? { return Some(Existing(existing.value)), lines; }
      var resolution := ResolveItems(items, catalog);
      if resolution.DivisionPanic? { return Some(Panicked), lines; }
      if !resolution.Resolved? { return Some(Invalid), lines; }
      PricedLinesAreSound(catalog, items);
      r, lines := None, resolution.lines;
    }

    /** The insert, which the unique index refuses if the key has been used meanwhile. */
    method InsertOrder(user: int, key: string, items: seq<Line>, lines: seq<Line>, uuid: State -> string, world: World,
                       fails: nat -> bool)
      returns (r: Created, ghost c: Course, ghost insert: Event)
      requires Valid() && Possible(world) && user > 0 && key != "" && own == [] && (forall u :: FreshId(u, uuid(u)))
      requires lines == Merge(items) && WellFormed(lines) && Ascending(lines) && Typed(lines)
      modifies this
      ensures Valid() && c.first == old(s) && insert == Insert(user, key, uuid(old(s)), lines)
      ensures InsertCause(c, user, key, insert, world, fails, r)
      ensures r.Existing? || r.New? ==>
        r.order in s.orders && s.orders[r.order].user == user && s.orders[r.order].key == key
      ensures CreateEnds(s, c.first, insert, own, r, fails)
      ensures r.New? ==> s.inventory == c.commit.inventory
    {
      c, insert := Course(s, s, s, s), Insert(user, key, uuid(s), lines);
      var existing := FindByKey(user, key);
      if existing.Some? && !fails(2) { return Existing(existing.value), c, insert; }
      if fails(1) || existing.Some? { return Failure(DatabaseError), c, insert; }
      var me, x, id := s.nextOp, s.nextOrder, uuid(s);
      assert FreshId(s, id);
      PlaceOrder(user, key, id, lines);
      r, c := AwaitReservation(x, me, world, fails, insert);
      c := c.(first := old(s));
    }

    method PlaceOrder(user: int, key: string, id: string, lines: seq<Line>)
      requires Valid() && own == [] && Enabled(s, Insert(user, key, id, lines))
      modifies this
      ensures Valid() && Came(old(s), Insert(user, key, id, lines), s) && own == [Insert(user, key, id, lines)]
      ensures CreatesAt(old(s).nextOp, old(s).nextOrder, Insert(user, key, id, lines), AwaitReserve)
    {
      Step(Insert(user, key, id, lines));
    }

    /** Operation `me` creates the order `x` that `insert` has added, and stands at `at`. */
    ghost predicate CreatesAt(me: nat, x: int, insert: Event, at: CreatePhase) reads this {
      && insert.Insert? && me in s.ops && me < s.nextOp && s.ops[me] == CreateOp(x, insert.id, at)
      && x in s.orders
      && s.orders[x] == Order(insert.user, insert.key, s.orders[x].status, insert.id, insert.lines)
    }

    /** The identifier inventory-service granted a request with, if its reply is there. */
    method GrantOf(me: nat, call: Call) returns (id: Option<string>)
      ensures id.Some? ==> (me, call, id.value) in s.granted
      ensures id == None <==> !Granted(s, me, call)
    {
      var todo := s.granted;
      while todo != {}
        invariant todo <= s.granted
        invariant forall g | g in s.granted && g !in todo :: g.0 != me || g.1 != call
        decreases |todo|
      {
        var g := NextKey(todo);
        if g.0 == me && g.1 == call { return Some(g.2); }
        todo := todo - {g};
      }
      id := None;
    }

    method AwaitReservation(x: int, me: nat, world: World, fails: nat -> bool, ghost insert: Event)
      returns (r: Created, ghost c: Course)
      requires Valid() && Possible(world) && CreatesAt(me, x, insert, AwaitReserve) && own == [insert]
      modifies this
      ensures Valid() && insert.Insert? && own == CreateStory(insert, me, r, fails)
      ensures CreateTold(s, x, insert, r, fails)
      ensures c.reply == world(1, me, old(s)) && ReserveCause(c, me, x, insert, r, fails)
      ensures ReservePath(c, me, x, insert, world, fails)
      ensures r.New? ==> s.inventory == c.commit.inventory
    {
      Pause(world, 1, me);
      c := Course(s, s, s, s);
      var call := ReserveCall(x, s.ops[me].reservation, s.orders[x].lines);
      var id := GrantOf(me, call);
      if fails(3) || id == None {
        r := FailOrder(x, me, world, fails, insert);
      } else {
        GrantsItsOwnId(s, me, call, id.value);
        TakeReply(x, me, id.value, insert);
        ghost var reply := c.reply;
        r, c := CommitReservation(x, me, id.value, world, fails, insert);
        c := c.(reply := reply);
      }
    }

    method TakeReply(x: int, me: nat, id: string, ghost insert: Event)
      requires Valid() && CreatesAt(me, x, insert, AwaitReserve) && id == insert.id
      requires (me, ReserveCall(x, insert.id, insert.lines), id) in s.granted
      modifies this
      ensures Valid() && CreatesAt(me, x, insert, CommitPending(id))
      ensures Came(old(s), OnCreate(me, ReserveReplied(id)), s) && own == old(own) + [OnCreate(me, ReserveReplied(id))]
    {
      ApplyShape(s, me, s.ops[me], CreateEffect(s.ops[me], ReserveReplied(id)));
      Step(OnCreate(me, ReserveReplied(id)));
    }

    method FailOrder(x: int, me: nat, world: World, fails: nat -> bool, ghost insert: Event) returns (r: Created)
      requires Valid() && Possible(world) && CreatesAt(me, x, insert, AwaitReserve) && own == [insert]
      modifies this
      ensures Valid() && r == Failure(CallFailed) && own == CreateStory(insert, me, r, fails)
      ensures CreateTold(s, x, insert, r, fails)
    {
      ActCreate(me, ReserveErrored);
      Pause(world, 2, me);
      WriteFailure(x, me, FailedWritten(!fails(4)), insert, WriteFailed);
      r := Failure(CallFailed);
    }

    /** The statement that records how a Create has failed. */
    method WriteFailure(x: int, me: nat, m: CreateMove, ghost insert: Event, ghost at: CreatePhase)
      requires Valid() && CreatesAt(me, x, insert, at)
      requires (m.FailedWritten? && at == WriteFailed) || (m.UndoneWritten? && at.WriteUndone?)
      modifies this
      ensures Valid() && own == old(own) + [OnCreate(me, m)] && x in s.orders
      ensures s.orders[x] == old(s).orders[x].(status := s.orders[x].status)
      ensures ReservationOf(s, x) == ReservationOf(old(s), x)
      ensures s.orders[x].status ==
        if !m.ok then Reserving else if m.FailedWritten? || at.released then Failed else ReconciliationRequired
    {
      OwnerFindsItsStatus(s, me, me);
      ActCreate(me, m);
    }

    /** The transaction that makes the order pending, or the compensation. */
    method CommitReservation(x: int, me: nat, id: string, world: World, fails: nat -> bool, ghost insert: Event)
      returns (r: Created, ghost c: Course)
      requires Valid() && Possible(world) && CreatesAt(me, x, insert, CommitPending(id))
      requires own == [insert, OnCreate(me, ReserveReplied(insert.id))] && id == insert.id
      modifies this
      ensures Valid() && insert.Insert? && own == CreateStory(insert, me, r, fails)
      ensures CreateTold(s, x, insert, r, fails)
      ensures c.commit == world(3, me, old(s))
      ensures fails(5) ==> Found(c.commit, OnCreate(me, PendingAborted), world, 4, me, c.last)
      ensures if fails(5)
        then r == Failure(if fails(6) || !Granted(c.last, me, SettleCall(x, id, L.Released)) then CompensationRequired
                          else Undone)
        else r == if fails(8) then Failure(Unread) else New(x)
      ensures r.New? ==> s.inventory == c.commit.inventory
    {
      Pause(world, 3, me);
      c := Course(s, s, s, s);
      if fails(5) {
        AbortPending(x, me, id, insert);
        ghost var last;
        r, last := UndoReservation(x, me, id, world, fails, insert);
        c := c.(last := last);
      } else {
        MakePending(x, me, insert, id);
        r := if fails(8) then Failure(Unread) else New(x);
      }
    }

    method MakePending(x: int, me: nat, ghost insert: Event, ghost id: string)
      requires Valid() && CreatesAt(me, x, insert, CommitPending(id))
      modifies this
      ensures Valid() && own == old(own) + [OnCreate(me, PendingCommitted)] && s.inventory == old(s).inventory
      ensures StatusOf(s, x) == Some(Pending) && ReservationOf(s, x).Some?
      ensures s.orders[x] == old(s).orders[x].(status := Pending)
    {
      OwnerCommits(s, me);
      ActCreate(me, PendingCommitted);
      OrderAndStockAgree(s, x);
    }

    method AbortPending(x: int, me: nat, id: string, ghost insert: Event)
      requires Valid() && CreatesAt(me, x, insert, CommitPending(id))
      modifies this
      ensures Valid() && CreatesAt(me, x, insert, AwaitUndo(id))
      ensures Came(old(s), OnCreate(me, PendingAborted), s) && own == old(own) + [OnCreate(me, PendingAborted)]
    {
      ApplyShape(s, me, s.ops[me], CreateEffect(s.ops[me], PendingAborted));
      Step(OnCreate(me, PendingAborted));
    }

    /** The compensation: release the stock, and record how that went. It succeeds exactly if the release has
        been granted and its reply arrives. */
    method UndoReservation(x: int, me: nat, id: string, world: World, fails: nat -> bool, ghost insert: Event)
      returns (r: Created, ghost last: State)
      requires Valid() && Possible(world) && CreatesAt(me, x, insert, AwaitUndo(id)) && id == insert.id
      requires own == [insert, OnCreate(me, ReserveReplied(insert.id)), OnCreate(me, PendingAborted)]
      modifies this
      ensures Valid() && own == CreateStory(insert, me, r, fails) && CreateTold(s, x, insert, r, fails)
      ensures last == world(4, me, old(s))
      ensures r == Failure(if fails(6) || !Granted(last, me, SettleCall(x, id, L.Released)) then CompensationRequired
                           else Undone)
    {
      Pause(world, 4, me);
      last := s;
      var undone := GrantOf(me, SettleCall(x, id, L.Released));
      var released := !fails(6) && undone.Some?;
      ActCreate(me, UndoReturned(released));
      r := RecordUndo(x, me, released, world, fails, insert);
    }

    method RecordUndo(x: int, me: nat, released: bool, world: World, fails: nat -> bool, ghost insert: Event)
      returns (r: Created)
      requires Valid() && Possible(world) && CreatesAt(me, x, insert, WriteUndone(released))
      requires own ==
        [insert, OnCreate(me, ReserveReplied(insert.id)), OnCreate(me, PendingAborted),
          OnCreate(me, UndoReturned(released))]
      modifies this
      ensures Valid() && own == CreateStory(insert, me, r, fails) && CreateTold(s, x, insert, r, fails)
      ensures r == Failure(if released then Undone else CompensationRequired)
    {
      Pause(world, 5, me);
      UndoIsTrue(s, me);
      WriteFailure(x, me, UndoneWritten(!fails(7)), insert, WriteUndone(released));
      r := Failure(if released then Undone else CompensationRequired);
    }

    // ----- the reconciliation worker

    /** A statement of a worker after which it goes on. */
    method ActRepair(me: nat, m: RepairMove)
      requires Valid() && Enabled(s, OnRepair(me, m)) && !m.RepairCommitted? && !m.MarkedFailed? && !m.MarkedUnresolved?
      modifies this
      ensures Valid() && Came(old(s), OnRepair(me, m), s) && own == old(own) + [OnRepair(me, m)]
      ensures me in s.ops && Some(s.ops[me]) == RepairEffect(old(s), old(s).ops[me], m).op && s.nextOp == old(s).nextOp
    {
      ReachableInv(s);
      assert OpOk(s, s.ops[me]);
      ApplyShape(s, me, s.ops[me], RepairEffect(s, s.ops[me], m));
      Step(OnRepair(me, m));
    }

    /** Processing a claimed task. What was found decides how it ends, and the answer tells what became of the
        task. Without faults the task is closed exactly if its order has reached the target or waits and has
        stock that can be settled that way. */
    method ProcessTask(worker: string, t: nat, readAt: int, lease: nat, retry: int, world: World, fails: nat -> bool)
      returns (r: Processed, ghost c: Course)
      requires Valid() && Possible(world) && Enabled(s, ClaimTask(worker, t, readAt, lease))
      modifies this
      ensures Valid() && own != [] && Closes(own[|own| - 1], r, retry, fails)
      ensures TaskTold(s, worker, t, r, retry)
      ensures Found(old(s), ClaimTask(worker, t, readAt, lease), world, 0, old(s).nextOp, c.first)
      ensures
        var k := old(s).tasks[t];
        TaskCause(c, old(s).nextOp, worker, t, k.order, k.action, world, fails, r)
      ensures Flawless(fails) && Courier(world) ==>
        var x, a := old(s).tasks[t].order, old(s).tasks[t].action;
        && r == (if Misfit(old(s), x, a) then GivenUp
                 else if Waits(old(s), x, a) && !Grantable(old(s), x, Asks(a)) then Retried else Closed)
        && (r == Retried ==> Waits(s, x, a))
    {
      own := [];
      var me := s.nextOp;
      ghost var x, a := s.tasks[t].order, s.tasks[t].action;
      Step(ClaimTask(worker, t, readAt, lease));
      r, c := LoadTask(me, worker, t, retry, world, fails, x, a);
      if Flawless(fails) && Courier(world) {
        CourierRepairs(old(s), ClaimTask(worker, t, readAt, lease), c, world, fails, r);
      }
    }

    /** Worker `me` works on a task of order `x` and stands at `at`. */
    ghost predicate WorksAt(me: nat, worker: string, t: nat, x: int, a: Action, at: RepairPhase) reads this {
      && me in s.ops && me < s.nextOp
      && s.ops[me].RepairOp? && s.ops[me] == RepairOp(worker, t, x, a, s.ops[me].reservation, at)
    }

    /** Load the order, and go on as its status demands. */
    method LoadTask(me: nat, worker: string, t: nat, retry: int, world: World, fails: nat -> bool, ghost x: int,
                    ghost a: Action)
      returns (r: Processed, ghost c: Course)
      requires Valid() && Possible(world) && WorksAt(me, worker, t, x, a, LoadOrder)
      modifies this
      ensures Valid() && own != [] && Closes(own[|own| - 1], r, retry, fails) && TaskTold(s, worker, t, r, retry)
      ensures c.first == world(0, me, old(s)) && TaskCause(c, me, worker, t, x, a, world, fails, r)
      ensures r != Closed ==> s.orders == c.last.orders
    {
      Pause(world, 0, me);
      ghost var first := s;
      if fails(0) {
        ActRepair(me, LoadErrored);
        r, c := MarkTask(me, worker, t, retry, world, fails, x, a, MarkFailed);
      } else {
        ReadOrder(me, worker, t, x, a);
        if s.ops[me].repair == AwaitRepair {
          r, c := AwaitInventory(me, worker, t, retry, world, fails, x, a, RepairRequest(first, x, a));
        } else if s.ops[me].repair == CommitRepair {
          r, c := CloseTask(me, worker, t, retry, world, fails, x, a);
        } else {
          r, c := MarkTask(me, worker, t, retry, world, fails, x, a, MarkUnresolved);
        }
      }
      c := c.(first := first);
    }

    method ReadOrder(me: nat, worker: string, t: nat, ghost x: int, ghost a: Action)
      requires Valid() && WorksAt(me, worker, t, x, a, LoadOrder)
      modifies this
      ensures Valid() && Came(old(s), OnRepair(me, OrderLoaded), s) && own == old(own) + [OnRepair(me, OrderLoaded)]
      ensures WorksAt(me, worker, t, x, a, s.ops[me].repair)
      ensures s.ops[me].repair ==
        if Misfit(old(s), x, a) then MarkUnresolved else if Waits(old(s), x, a) then AwaitRepair else CommitRepair
      ensures Waits(old(s), x, a) ==> RepairCallOf(s.ops[me]) == RepairRequest(old(s), x, a)
    {
      ActRepair(me, OrderLoaded);
    }

    /** The inventory call of a repair. */
    method AwaitInventory(me: nat, worker: string, t: nat, retry: int, world: World, fails: nat -> bool, ghost x: int,
                          ghost a: Action, ghost call: Call)
      returns (r: Processed, ghost c: Course)
      requires Valid() && Possible(world) && WorksAt(me, worker, t, x, a, AwaitRepair)
      requires RepairCallOf(s.ops[me]) == call
      modifies this
      ensures Valid() && own != [] && Closes(own[|own| - 1], r, retry, fails) && TaskTold(s, worker, t, r, retry)
      ensures c.reply == world(1, me, old(s)) && AskCause(c, me, worker, t, x, a, call, world, fails, r)
      ensures r != Closed ==> s.orders == c.last.orders
    {
      Pause(world, 1, me);
      ghost var reply := s;
      if !fails(1) && Granted(s, me, RepairCallOf(s.ops[me])) {
        ActRepair(me, RepairReplied);
        r, c := CloseTask(me, worker, t, retry, world, fails, x, a);
      } else {
        ActRepair(me, RepairErrored);
        r, c := MarkTask(me, worker, t, retry, world, fails, x, a, MarkFailed);
      }
      c := c.(reply := reply);
    }

    /** The closing transaction, or the mark. */
    method CloseTask(me: nat, worker: string, t: nat, retry: int, world: World, fails: nat -> bool, ghost x: int,
                     ghost a: Action)
      returns (r: Processed, ghost c: Course)
      requires Valid() && Possible(world) && WorksAt(me, worker, t, x, a, CommitRepair)
      modifies this
      ensures Valid() && own != [] && Closes(own[|own| - 1], r, retry, fails) && TaskTold(s, worker, t, r, retry)
      ensures c.commit == world(2, me, old(s)) && CloseCause(c, me, worker, t, x, a, world, fails, r)
      ensures r != Closed ==> s.orders == c.last.orders
    {
      Pause(world, 2, me);
      ghost var commit := s;
      c := Course(s, s, s, s);
      var done := CommitTask(me, worker, t, fails(2), x, a);
      if done {
        r := Closed;
      } else {
        r, c := MarkTask(me, worker, t, retry, world, fails, x, a, s.ops[me].repair);
        c := c.(commit := commit);
      }
    }

    /** The transaction that closes order and task together: without a fault, for an order that fits, and for the
        owner of the lease only. */
    method CommitTask(me: nat, worker: string, t: nat, fails: bool, ghost x: int, ghost a: Action) returns (done: bool)
      requires Valid() && WorksAt(me, worker, t, x, a, CommitRepair)
      modifies this
      ensures Valid() && (done <==> !fails && !Misfit(old(s), x, a) && Leases(old(s), worker, t))
      ensures done ==> own == old(own) + [OnRepair(me, RepairCommitted)]
      ensures done ==>
        t in s.tasks && s.tasks[t].lease.status == T.Completed && Reached(s, s.tasks[t].order, s.tasks[t].action)
      ensures !done ==>
        var mismatch := !fails && Misfit(old(s), x, a);
        && Came(old(s), OnRepair(me, RepairAborted(mismatch)), s)
        && WorksAt(me, worker, t, x, a, if mismatch then MarkUnresolved else MarkFailed)
    {
      CommitIsDefined(s, me);
      var op := s.ops[me];
      var status := StatusOf(s, op.order);
      var mismatch := status != Some(ReconciliationRequired) && status != Some(Target(op.action));
      done := !fails && !mismatch && s.tasks[t].lease.owner == op.worker;
      if done {
        CompletesTask(s, me);
        Step(OnRepair(me, RepairCommitted));
      } else {
        ActRepair(me, RepairAborted(!fails && mismatch));
      }
    }

    /** The mark, which only the owner of the lease can set. */
    method MarkTask(me: nat, worker: string, t: nat, retry: int, world: World, fails: nat -> bool, ghost x: int,
                    ghost a: Action, ghost at: RepairPhase)
      returns (r: Processed, ghost c: Course)
      requires Valid() && Possible(world) && WorksAt(me, worker, t, x, a, at)
      requires at == MarkFailed || at == MarkUnresolved
      modifies this
      ensures Valid() && r != Closed && own != [] && Closes(own[|own| - 1], r, retry, fails)
      ensures TaskTold(s, worker, t, r, retry)
      ensures c.last == world(3, me, old(s)) && MarkCause(c.last, worker, t, at == MarkUnresolved, r, fails)
      ensures s.orders == c.last.orders
    {
      Pause(world, 3, me);
      c := Course(s, s, s, s);
      TaskIsThere(s, me);
      var lost := s.tasks[t].lease.owner != worker;
      var unresolved := s.ops[me].repair == MarkUnresolved;
      var mark := if unresolved then MarkedUnresolved(!fails(3)) else MarkedFailed(retry, !fails(3));
      MarksTask(s, me, mark);
      Step(OnRepair(me, mark));
      r := if fails(3) then NotWritten else if lost then LeaseLost else if unresolved then GivenUp else Retried;
    }
  }

  lemma {:induction false} StockIsSettled(s: State, i: nat)
    requires Reachable(s) && i in s.ops && s.ops[i].SettleOp?
    requires s.ops[i].settle == CommitFinal || s.ops[i].settle == WriteReconciliation
    ensures ReservationOf(s, s.ops[i].order) == Some(Outcome(s.ops[i].intent))
  {
    ReachableInv(s);
    assert OpOk(s, s.ops[i]);
  }

  /** Inventory-service grants a reservation under the identifier that was asked for. */
  lemma {:induction false} GrantsItsOwnId(s: State, i: nat, call: Call, id: string)
    requires Reachable(s) && (i, call, id) in s.granted && call.ReserveCall?
    ensures id == call.id
  {
    ReachableInv(s);
    assert GrantOk(s, call, id);
  }

  lemma {:induction false} UndoIsTrue(s: State, i: nat)
    requires Reachable(s) && i in s.ops && s.ops[i].CreateOp? && s.ops[i].create.WriteUndone?
    ensures s.ops[i].order in s.orders
    ensures s.ops[i].create.released ==> ReservationOf(s, s.ops[i].order) == Some(L.Released)
  {
    ReachableInv(s);
    assert OpOk(s, s.ops[i]);
  }

  lemma {:induction false} CommitIsDefined(s: State, i: nat)
    requires Reachable(s) && i in s.ops && s.ops[i].RepairOp? && s.ops[i].repair == CommitRepair
    ensures !s.ops[i].action.Unsupported? && s.ops[i].task in s.tasks
  {
    ReachableInv(s);
    assert OpOk(s, s.ops[i]);
  }

  lemma {:induction false} TaskIsThere(s: State, i: nat)
    requires Reachable(s) && i in s.ops && s.ops[i].RepairOp?
    ensures s.ops[i].task in s.tasks
  {
    ReachableInv(s);
    assert OpOk(s, s.ops[i]);
  }

  /** A mark that is written takes effect exactly for the owner of the lease. */
  lemma {:induction false} MarksTask(s: State, i: nat, m: RepairMove)
    requires Reachable(s) && Enabled(s, OnRepair(i, m)) && (m.MarkedFailed? || m.MarkedUnresolved?)
    requires s.ops[i].task in s.tasks
    ensures var s', t, w := Next(s, OnRepair(i, m)), s.ops[i].task, s.ops[i].worker;
      && t in s'.tasks
      && (!m.ok || s.tasks[t].lease.owner != w ==> s'.tasks[t] == s.tasks[t])
      && (m.ok && s.tasks[t].lease.owner == w ==>
            var k := s'.tasks[t].lease;
            && k.owner == "" && k.until == None
            && (m.MarkedFailed? ==> k.status == T.Failed && k.nextAttemptAt == m.next)
            && (m.MarkedUnresolved? ==> k.status == T.Unresolved))
      && s'.orders == s.orders
  {
    ReachableInv(s);
    assert OpOk(s, s.ops[i]);
    ApplyTaskShape(s, i, s.ops[i], RepairEffect(s, s.ops[i], m));
  }

  lemma {:induction false} CompletesTask(s: State, i: nat)
    requires Reachable(s) && Enabled(s, OnRepair(i, RepairCommitted))
    ensures var s', t := Next(s, OnRepair(i, RepairCommitted)), s.ops[i].task;
      t in s'.tasks && s'.tasks[t].lease.status == T.Completed && Reached(s', s'.tasks[t].order, s'.tasks[t].action)
  {
    var s' := Next(s, OnRepair(i, RepairCommitted));
    ReachableInv(s);
    assert OpOk(s, s.ops[i]);
    ApplyTaskShape(s, i, s.ops[i], RepairEffect(s, s.ops[i], RepairCommitted));
    StepReachable(s, OnRepair(i, RepairCommitted));
    ReachableInv(s');
    assert TaskOk(s', s.ops[i].task);
  }
}
