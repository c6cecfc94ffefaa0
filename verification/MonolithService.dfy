/** The older order service as it is written: loops over the items that update stock and logs row by
    row, a rollback when anything fails, and reads outside the transaction that acts on them. */
module MonolithService {
  import opened Wrappers
  import opened Items
  import opened Sorting
  import opened Monolith
  import P = MonolithProof

  method ValidateDuplicates(items: seq<Line>) returns (ok: bool)
    ensures ok <==> NoDuplicates(items)
  {
    var seen: set<int> := {};
    for i := 0 to |items|
      invariant forall p :: p in seen <==> exists j :: 0 <= j < i && items[j].product == p
      invariant NoDuplicates(items[..i])
    {
      if items[i].product in seen {
        return false;
      }
      seen := seen + {items[i].product};
    }
    assert items[..|items|] == items;
    ok := true;
  }

  class Database {
    var stock: map<int, int>
    var logs: seq<Log>
    var orders: map<int, Order>
    var keys: map<(int, string), Record>
    var timeouts: map<int, Timeout>
    var nextOrder: int

    function Contents(): State reads this { State(stock, logs, orders, keys, timeouts, nextOrder) }

    /** The logs explain the stock, and every key has its order. */
    ghost predicate Valid() reads this { Inv(Contents()) }

    constructor ()
      ensures Contents() == EMPTY && Valid()
    {
      stock, logs, orders, keys, timeouts, nextOrder := map[], [], map[], map[], map[], 1;
      new;
      P.EmptyInv();
    }

    /** The loop of CreateOrder. It stops at the first item that cannot be served, leaving the rows it
        has already changed to the rollback. */
    method DeductItems(catalog: Catalog, items: seq<Line>) returns (error: Option<Error>, total: int)
      modifies this`stock, this`logs
      ensures var done := Deduct(old(stock), old(logs), catalog, items);
        match error
        case Some(e) => done == Stopped(e)
        case None => done == Swept(stock, logs, total)
    {
      total := 0;
      for i := 0 to |items|
        invariant Deduct(old(stock), old(logs), catalog, items[..i]) == Swept(stock, logs, total)
      {
        var item := items[i];
        assert items[..i + 1][..i] == items[..i];
        var failure: Option<Error> :=
          if item.product !in catalog then Some(ProductNotFound)
          else if !catalog[item.product].onSale then Some(OffSale)
          else if item.product !in stock then Some(InventoryNotFound)
          else if stock[item.product] - item.quantity < 0 then Some(InsufficientStock)
          else if !Storable(catalog[item.product], item.quantity) then Some(StorageError)
          else None;
        if failure.Some? {
          StopsFor(old(stock), old(logs), catalog, items, i + 1, failure.value);
          return failure, total;
        }
        var before := stock[item.product];
        var after := before - item.quantity;
        stock := stock[item.product := after];
        total := Wrap(total + Wrap(catalog[item.product].price * item.quantity));
        logs := logs + [Log(item.product, -item.quantity, before, after, OrderDeduct)];
      }
      assert items[..|items|] == items;
      error := None;
    }

    /** An order that is created holds the requested items and is the one its key names; a request that
        is refused changes nothing. */
    method CreateOrder(catalog: Catalog, user: int, key: string, items: seq<Line>, timeout: Timeout)
      returns (reply: Reply)
      requires Valid()
      modifies this
      ensures Valid() && (Contents(), reply) == Create(old(Contents()), catalog, user, key, items, timeout)
      ensures reply.Denied? ==> Contents() == old(Contents())
      ensures reply.Done? ==>
        Owns(Contents(), user, reply.order) && multiset(orders[reply.order].items) == multiset(items)
      ensures reply.Done? ==> (user, key) in keys && keys[(user, key)].order == Some(reply.order)
    {
      P.CreateInv(Contents(), catalog, user, key, items, timeout);
      ghost var result := Create(Contents(), catalog, user, key, items, timeout);
      if result.1.Done? {
        P.CreatedRecord(Contents(), catalog, user, key, items, timeout, result.1.order);
        assert KeyOk(result.0, (user, key));
      }
      reply := PlaceOrder(catalog, user, key, items, timeout);
    }

    method PlaceOrder(catalog: Catalog, user: int, key: string, items: seq<Line>, timeout: Timeout)
      returns (reply: Reply)
      modifies this
      ensures (Contents(), reply) == Create(old(Contents()), catalog, user, key, items, timeout)
    {
      if user <= 0 { return Denied(InvalidUser); }
      if Blank(key) || |key| > 128 { return Denied(InvalidKey); }
      if (user, key) in keys {
        reply := AnswerRepeat(user, key, items);
        return;
      }
      var backup := Contents();
      var error := InsertOrder(catalog, user, key, items, timeout);
      if error.Some? {
        Restore(backup);
        return Denied(error.value);
      }
      reply := Done(backup.nextOrder);
    }

    /** The transaction proper; on an error the rows it has changed are left to the rollback. */
    method InsertOrder(catalog: Catalog, user: int, key: string, items: seq<Line>, timeout: Timeout)
      returns (error: Option<Error>)
      requires user > 0 && !Blank(key) && |key| <= 128 && (user, key) !in keys
      modifies this
      ensures var (t, reply) := Create(old(Contents()), catalog, user, key, items, timeout);
        match error
        case Some(e) => t == old(Contents()) && reply == Denied(e)
        case None => t == Contents() && reply == Done(old(nextOrder))
    {
      var x, hash := nextOrder, Sort(items, ByProductThenQuantity);
      keys := keys[(user, key) := Record(hash, None)];
      orders := orders[x := Order(user, Pending, items, 0)];
      nextOrder := x + 1;
      var distinct := ValidateDuplicates(items);
      if !distinct { return Some(DuplicateItem); }
      var failure, total := DeductItems(catalog, items);
      if failure.Some? { return failure; }
      if total < 0 { return Some(StorageError); }
      orders := orders[x := orders[x].(total := total)];
      keys := keys[(user, key) := keys[(user, key)].(order := Some(x))];
      timeouts := timeouts[x := timeout];
      assert orders == old(orders)[x := Order(user, Pending, items, total)];
      assert keys == old(keys)[(user, key) := Record(hash, Some(x))];
      error := None;
    }

    method AnswerRepeat(user: int, key: string, items: seq<Line>) returns (reply: Reply)
      requires (user, key) in keys
      ensures reply == Replay(Contents(), user, key, items)
    {
      var record := keys[(user, key)];
      if record.hash != Sort(items, ByProductThenQuantity) { return Denied(KeyConflict); }
      if record.order == None { return Denied(BeingCreated); }
      var x := record.order.value;
      if x <= 0 || x !in orders || orders[x].user != user { return Denied(KeyStateInvalid); }
      reply := Done(x);
    }

    /** The tables as they were, or as other transactions leave them. */
    method Restore(to: State)
      modifies this
      ensures Contents() == to
    {
      stock, logs, orders, keys, timeouts, nextOrder :=
          to.stock, to.logs, to.orders, to.keys, to.timeouts, to.nextOrder;
    }

    method CancelPendingOrder(x: int) returns (reply: Reply)
      requires x in orders
      modifies this
      ensures (Contents(), reply) == CancelPending(old(Contents()), x)
    {
      if orders[x].status != Pending { return Denied(CancelFailed); }
      var backup := Contents();
      orders := orders[x := orders[x].(status := Cancelled)];
      var items := orders[x].items;
      for i := 0 to |items|
        invariant (stock, logs) == Moved(old(stock), old(logs), items[..i], true)
        invariant Stocked(old(stock), items[..i]) && stock.Keys == old(stock).Keys
        invariant orders == old(orders)[x := old(orders)[x].(status := Cancelled)]
        invariant keys == old(keys) && timeouts == old(timeouts) && nextOrder == old(nextOrder)
      {
        var item := items[i];
        if item.product !in stock {
          Restore(backup);
          return Denied(InventoryNotFound);
        }
        var before := stock[item.product];
        var after := before + item.quantity;
        stock := stock[item.product := after];
        logs := logs + [Log(item.product, item.quantity, before, after, OrderRollback)];
        assert items[..i + 1][..i] == items[..i];
      }
      assert items[..|items|] == items;
      reply := Done(x);
    }

    /** Cancelling never fails on a pending order of the user, and repeats harmlessly. */
    method CancelOrder(user: int, x: int) returns (reply: Reply)
      requires Valid()
      modifies this
      ensures Valid() && (Contents(), reply) == Cancel(old(Contents()), user, x)
      ensures reply == Done(x) <==>
        Owns(old(Contents()), user, x) && (old(orders)[x].status == Pending || old(orders)[x].status == Cancelled)
      ensures reply.Done? ==> x in orders && orders[x].status == Cancelled
    {
      P.CancelInv(Contents(), user, x);
      if x !in orders || orders[x].user != user { return Denied(OrderNotFound); }
      match orders[x].status
      case Cancelled => reply := Done(x);
      case Paid => reply := Denied(AlreadyPaid);
      case Finished => reply := Denied(AlreadyFinished);
      case Pending =>
        P.CancelPendingInv(Contents(), x);
        reply := CancelPendingOrder(x);
    }

    /** Once the timeout of this event has passed the order is not pending any more; before that, and for an
        event that is not the order's, nothing changes. */
    method CancelExpiredOrder(event: string, x: int, now: int) returns (reply: Reply)
      requires Valid()
      modifies this
      ensures Valid() && (Contents(), reply) == Expire(old(Contents()), event, x, now)
      ensures x in old(timeouts) && old(timeouts)[x].event == event && old(timeouts)[x].at <= now ==>
        reply == Done(x) && (x in orders ==> orders[x].status != Pending)
      ensures x in old(timeouts) && old(timeouts)[x].event == event && now < old(timeouts)[x].at ==>
        reply == Denied(NotExpired) && Contents() == old(Contents())
      ensures x !in old(timeouts) || old(timeouts)[x].event != event ==>
                reply == Done(x) && Contents() == old(Contents())
    {
      P.ExpireInv(Contents(), event, x, now);
      if x !in timeouts || timeouts[x].event != event { return Done(x); }
      if now < timeouts[x].at { return Denied(NotExpired); }
      if x !in orders || orders[x].status != Pending { return Done(x); }
      P.CancelPendingInv(Contents(), x);
      reply := CancelPendingOrder(x);
    }

    /** The order is read first and updated later, under a guard; `others` is what happens in between. A
        payment that is answered with success has been made, and one that is not has changed nothing. */
    method PayOrder(user: int, x: int, others: seq<(Catalog, Event)>) returns (reply: Reply)
      requires Valid()
      modifies this
      ensures Valid()
      ensures match PayRefusal(old(Contents()), user, x)
        case Some(e) => reply == Denied(e) && Contents() == old(Contents())
        case None => (Contents(), reply) == Pay(Run(old(Contents()), others), user, x)
      ensures reply.Done? <==>
        PayRefusal(old(Contents()), user, x) == None && PayRefusal(Run(old(Contents()), others), user, x) == None
      ensures reply.Done? ==> Owns(Contents(), user, x) && orders[x].status == Paid
    {
      if x !in orders || orders[x].user != user { return Denied(OrderNotFound); }
      match orders[x].status {
        case Paid => return Denied(AlreadyPaid);
        case Finished => return Denied(AlreadyFinished);
        case Cancelled => return Denied(AlreadyCancelled);
        case Pending =>
      }
      Meanwhile(others);
      P.PayInv(Contents(), user, x);
      if x in orders && orders[x].user == user && orders[x].status == Pending {
        orders := orders[x := orders[x].(status := Paid)];
        reply := Done(x);
      } else {
        reply := Denied(PayFailed);
      }
    }

    method FinishOrder(user: int, x: int, others: seq<(Catalog, Event)>) returns (reply: Reply)
      requires Valid()
      modifies this
      ensures Valid()
      ensures match FinishRefusal(old(Contents()), user, x)
        case Some(e) => reply == Denied(e) && Contents() == old(Contents())
        case None => (Contents(), reply) == Finish(Run(old(Contents()), others), user, x)
      ensures reply.Done? <==>
        FinishRefusal(old(Contents()), user, x) == None && FinishRefusal(Run(old(Contents()), others), user, x) == None
      ensures reply.Done? ==> Owns(Contents(), user, x) && orders[x].status == Finished
    {
      if x !in orders || orders[x].user != user { return Denied(OrderNotFound); }
      match orders[x].status {
        case Pending => return Denied(NotPaid);
        case Cancelled => return Denied(AlreadyCancelled);
        case Finished => return Denied(AlreadyFinished);
        case Paid =>
      }
      Meanwhile(others);
      P.FinishInv(Contents(), user, x);
      if x in orders && orders[x].user == user && orders[x].status == Paid {
        orders := orders[x := orders[x].(status := Finished)];
        reply := Done(x);
      } else {
        reply := Denied(FinishFailed);
      }
    }

    /** Transactions of other processes. */
    method Meanwhile(others: seq<(Catalog, Event)>)
      requires Valid()
      modifies this
      ensures Valid() && Contents() == Run(old(Contents()), others)
      ensures P.Kept(old(Contents()), Contents())
    {
      P.RunInv(Contents(), others);
      P.RunKeeps(Contents(), others);
      Restore(Run(Contents(), others));
    }

    method InitInventory(catalog: Catalog, p: int, quantity: int) returns (reply: Reply)
      requires Valid()
      modifies this`stock, this`logs
      ensures Valid() && (Contents(), reply) == Init(old(Contents()), catalog, p, quantity)
      ensures reply.Done? <==> quantity >= 0 && p in catalog && p !in old(stock)
      ensures stock == if reply.Done? then old(stock)[p := quantity] else old(stock)
    {
      P.InitInv(Contents(), catalog, p, quantity);
      if quantity < 0 { return Denied(InvalidQuantity); }
      if p !in catalog { return Denied(ProductNotFound); }
      if p in stock { return Denied(InventoryExists); }
      stock := stock[p := quantity];
      logs := logs + [Log(p, quantity, 0, quantity, InitStock)];
      reply := Done(p);
    }

    method AddInventory(catalog: Catalog, p: int, quantity: int) returns (reply: Reply)
      requires Valid()
      modifies this`stock, this`logs
      ensures Valid() && (Contents(), reply) == Add(old(Contents()), catalog, p, quantity)
      ensures reply.Done? <==> quantity > 0 && p in catalog && p in old(stock)
      ensures stock == if reply.Done? then old(stock)[p := old(stock)[p] + quantity] else old(stock)
    {
      P.AddInv(Contents(), catalog, p, quantity);
      if quantity <= 0 { return Denied(InvalidQuantity); }
      if p !in stock { return Denied(InventoryNotFound); }
      if p !in catalog { return Denied(ProductNotFound); }
      var before := stock[p];
      stock := stock[p := before + quantity];
      logs := logs + [Log(p, quantity, before, before + quantity, ManualAdd)];
      reply := Done(p);
    }
  }

  /** A sweep that stops stays stopped. */
  lemma {:induction false} StopsFor(stock: map<int, int>, logs: seq<Log>, catalog: Catalog, items: seq<Line>, n: nat,
                                    e: Error)
    requires n <= |items| && Deduct(stock, logs, catalog, items[..n]) == Stopped(e)
    ensures Deduct(stock, logs, catalog, items) == Stopped(e)
    decreases |items| - n
  {
    if n == |items| {
      assert items[..n] == items;
    } else {
      assert items[..n + 1][..n] == items[..n];
      StopsFor(stock, logs, catalog, items, n + 1, e);
    }
  }
}
