/** What the older order service guarantees after any sequence of transactions. */
module MonolithProof {
  import opened Wrappers
  import opened Items
  import opened Sorting
  import opened Monolith

  // ----- logs and sums

  lemma {:induction false} Snoc(logs: seq<Log>, l: Log, p: int)
    ensures LastAfter(logs + [l], p) == if l.product == p then l.after else LastAfter(logs, p)
    ensures Unbroken(logs + [l], p) <==>
      Unbroken(logs, p) && (l.product == p ==> l.before == LastAfter(logs, p) && l.after == l.before + l.change)
    ensures Sum(logs + [l], p, PUT_IN) ==
      Sum(logs, p, PUT_IN) + if l.product == p && l.kind in PUT_IN then l.change else 0
  {
    assert (logs + [l])[..|logs|] == logs;
  }

  ghost predicate Chained(stock: map<int, int>, logs: seq<Log>, p: int) {
    Unbroken(logs, p) && LastAfter(logs, p) == Level(stock, p)
  }

  /** Movements by orders, which put in nothing, have changed the stock of `p` by `change` and logged it. */
  ghost predicate Shifted(stock: map<int, int>, logs: seq<Log>, p: int, change: int, stock': map<int, int>,
                          logs': seq<Log>) {
    && Chained(stock', logs', p) && Level(stock', p) == Level(stock, p) + change
    && Sum(logs', p, PUT_IN) == Sum(logs, p, PUT_IN)
  }

  /** One more movement of product `q`. */
  lemma {:induction false} OneItem(stock: map<int, int>, logs: seq<Log>, p: int, change: int, stock': map<int, int>,
                                   logs': seq<Log>, q: int, moved: int, kind: Kind)
    requires Shifted(stock, logs, p, change, stock', logs') && kind !in PUT_IN
    ensures Shifted(stock, logs, p, change + if q == p then moved else 0,
                    stock'[q := Level(stock', q) + moved],
                    logs' + [Log(q, moved, Level(stock', q), Level(stock', q) + moved, kind)])
  {
    Snoc(logs', Log(q, moved, Level(stock', q), Level(stock', q) + moved, kind), p);
  }

  lemma {:induction false} MovedLedger(stock: map<int, int>, logs: seq<Log>, items: seq<Line>, back: bool, p: int)
    requires Chained(stock, logs, p)
    ensures var (now, log) := Moved(stock, logs, items, back);
      Shifted(stock, logs, p, if back then SumQty(items, p) else -SumQty(items, p), now, log)
    decreases |items|
  {
    if items != [] {
      var n := |items| - 1;
      var (now, log) := Moved(stock, logs, items[..n], back);
      MovedLedger(stock, logs, items[..n], back, p);
      var sum, q := SumQty(items[..n], p), items[n].quantity;
      OneItem(stock, logs, p, if back then sum else -sum, now, log, items[n].product, if back then q else -q,
              if back then OrderRollback else OrderDeduct);
    }
  }

  lemma {:induction false} MovedKeys(stock: map<int, int>, logs: seq<Log>, items: seq<Line>, back: bool)
    requires Stocked(stock, items)
    ensures Moved(stock, logs, items, back).0.Keys == stock.Keys
    decreases |items|
  {
    if items != [] {
      assert items[|items| - 1].product in stock;
      MovedKeys(stock, logs, items[..|items| - 1], back);
    }
  }

  /** A deducting loop that gets to its end has taken every item from a row that was there. */
  lemma {:induction false} DeductMoves(stock: map<int, int>, logs: seq<Log>, catalog: Catalog, items: seq<Line>)
    requires Deduct(stock, logs, catalog, items).Swept?
    ensures var done := Deduct(stock, logs, catalog, items);
      && (done.stock, done.logs) == Moved(stock, logs, items, false) && Stocked(stock, items)
      && done.stock.Keys == stock.Keys
    decreases |items|
  {
    if items != [] {
      var n := |items| - 1;
      DeductMoves(stock, logs, catalog, items[..n]);
      assert items == items[..n] + [items[n]];
    }
  }

  function Share(o: Order, p: int): int { if o.status == Cancelled then 0 else SumQty(o.items, p) }

  /** Changing or adding one order changes the sum by the difference of its shares. */
  lemma {:induction false} OrderedPut(orders: map<int, Order>, x: nat, o: Order, n: nat, p: int)
    ensures Ordered(orders[x := o], n, p) ==
      Ordered(orders, n, p) + if x < n then Share(o, p) - (if x in orders then Share(orders[x], p) else 0) else 0
  {
    if n > 0 { OrderedPut(orders, x, o, n - 1, p); }
  }

  // ----- every transaction keeps the invariant

  lemma {:induction false} CreateLedger(t: State, catalog: Catalog, user: int, items: seq<Line>, p: int)
    requires OrdersOk(t) && Ledger(t, p) && Deduct(t.stock, t.logs, catalog, items).Swept?
    ensures var done, x := Deduct(t.stock, t.logs, catalog, items), t.nextOrder;
      var orders := t.orders[x := Order(user, Pending, items, done.total)];
      && Chained(done.stock, done.logs, p)
      && Level(done.stock, p) + Ordered(orders, x + 1, p) == Sum(done.logs, p, PUT_IN)
  {
    DeductMoves(t.stock, t.logs, catalog, items);
    MovedLedger(t.stock, t.logs, items, false, p);
    var done, x := Deduct(t.stock, t.logs, catalog, items), t.nextOrder;
    OrderedPut(t.orders, x, Order(user, Pending, items, done.total), x + 1, p);
  }

  lemma {:induction false} CreateInv(t: State, catalog: Catalog, user: int, key: string, items: seq<Line>,
                                     timeout: Timeout)
    requires Inv(t)
    ensures Inv(Create(t, catalog, user, key, items, timeout).0)
  {
    var (t', reply) := Create(t, catalog, user, key, items, timeout);
    if t' != t {
      forall p ensures Ledger(t', p) {
        assert Ledger(t, p);
        CreateLedger(t, catalog, user, items, p);
      }
      CreateOrders(t, catalog, items, t');
      CreateKeys(t, t', user, key, items);
    }
  }

  lemma {:induction false} CreateOrders(t: State, catalog: Catalog, items: seq<Line>, t': State)
    requires OrdersOk(t) && Deduct(t.stock, t.logs, catalog, items).Swept?
    requires t'.stock == Deduct(t.stock, t.logs, catalog, items).stock && t'.nextOrder == t.nextOrder + 1
    requires t'.orders.Keys == t.orders.Keys + {t.nextOrder}
    requires forall y | y in t.orders :: t'.orders[y] == t.orders[y]
    requires t'.orders[t.nextOrder].items == items
    ensures OrdersOk(t')
  {
    DeductMoves(t.stock, t.logs, catalog, items);
  }

  /** The tables after a new order `x` has been added under a new key. */
  ghost predicate Added(t: State, t': State, user: int, key: string, items: seq<Line>) {
    var x := t.nextOrder;
    && (user, key) !in t.keys && user > 0 && !Blank(key) && |key| <= 128
    && x in t'.orders && t'.orders.Keys == t.orders.Keys + {x}
    && (forall y | y in t.orders :: t'.orders[y] == t.orders[y])
    && t'.orders[x].user == user && t'.orders[x].items == items
    && t'.keys == t.keys[(user, key) := Record(Hash(items), Some(x))]
  }

  lemma {:induction false} CreateKeyOk(t: State, t': State, user: int, key: string, items: seq<Line>, k: (int, string))
    requires OrdersOk(t) && Added(t, t', user, key, items) && k in t'.keys && (k in t.keys ==> KeyOk(t, k))
    ensures KeyOk(t', k) && (k in t.keys ==> t.keys[k].order != Some(t.nextOrder))
  {
  }

  lemma {:induction false} CreateApart(t: State, t': State, user: int, key: string, items: seq<Line>)
    requires OrdersOk(t) && KeysOk(t) && Added(t, t', user, key, items)
    ensures forall k, l | k in t'.keys && l in t'.keys && t'.keys[k].order == t'.keys[l].order :: k == l
  {
    forall k, l | k in t'.keys && l in t'.keys && t'.keys[k].order == t'.keys[l].order ensures k == l {
      assert (k in t.keys ==> KeyOk(t, k)) && (l in t.keys ==> KeyOk(t, l));
      CreateKeyOk(t, t', user, key, items, k);
      CreateKeyOk(t, t', user, key, items, l);
    }
  }

  lemma {:induction false} CreateKeys(t: State, t': State, user: int, key: string, items: seq<Line>)
    requires OrdersOk(t) && KeysOk(t) && Added(t, t', user, key, items)
    ensures KeysOk(t')
  {
    CreateApart(t, t', user, key, items);
    CreateAllPointed(t, t', user, key, items);
    forall k | k in t'.keys ensures KeyOk(t', k) {
      assert k in t.keys ==> KeyOk(t, k);
      CreateKeyOk(t, t', user, key, items, k);
    }
  }

  lemma {:induction false} CreateAllPointed(t: State, t': State, user: int, key: string, items: seq<Line>)
    requires Added(t, t', user, key, items) && forall x | x in t.orders :: Pointed(t, x)
    ensures forall y | y in t'.orders :: Pointed(t', y)
  {
    forall y | y in t'.orders ensures Pointed(t', y) { CreatePoints(t, t', user, key, y); }
  }

  lemma {:induction false} CreatePoints(t: State, t': State, user: int, key: string, y: int)
    requires (user, key) !in t.keys && (y in t.orders ==> Pointed(t, y))
    requires y in t.orders || y == t.nextOrder
    requires t'.keys.Keys == t.keys.Keys + {(user, key)} && (forall k | k in t.keys :: t'.keys[k] == t.keys[k])
    requires t'.keys[(user, key)].order == Some(t.nextOrder)
    ensures Pointed(t', y)
  {
    if y == t.nextOrder {
      assert (user, key) in t'.keys;
    } else {
      var k :| k in t.keys && t.keys[k].order == Some(y);
      assert k in t'.keys;
    }
  }

  /** Changing an order's status and nothing else of it. */
  lemma {:induction false} RestatusKeys(t: State, t': State, x: int, st: Status)
    requires OrdersOk(t) && KeysOk(t) && x in t.orders
    requires t'.orders == t.orders[x := t.orders[x].(status := st)] && t'.keys == t.keys
    requires t'.stock.Keys == t.stock.Keys && t'.nextOrder == t.nextOrder
    ensures OrdersOk(t') && KeysOk(t')
  {
    forall k | k in t'.keys ensures KeyOk(t', k) { assert KeyOk(t, k); }
    forall y | y in t'.orders ensures Pointed(t', y) {
      assert Pointed(t, y);
      var k :| k in t.keys && t.keys[k].order == Some(y);
      assert k in t'.keys;
    }
  }

  lemma {:induction false} CancelPendingInv(t: State, x: int)
    requires Inv(t) && x in t.orders && t.orders[x].status == Pending
    ensures Inv(CancelPending(t, x).0) && CancelPending(t, x).1 == Done(x)
  {
    var t' := CancelPending(t, x).0;
    MovedKeys(t.stock, t.logs, t.orders[x].items, true);
    forall p ensures Ledger(t', p) {
      assert Ledger(t, p);
      MovedLedger(t.stock, t.logs, t.orders[x].items, true, p);
      OrderedPut(t.orders, x, t.orders[x].(status := Cancelled), t.nextOrder, p);
    }
    RestatusKeys(t, t', x, Cancelled);
  }

  lemma {:induction false} MoveInv(t: State, x: int, st: Status)
    requires Inv(t) && x in t.orders && t.orders[x].status != Cancelled && st != Cancelled
    ensures Inv(Restatus(t, x, st))
  {
    var t' := Restatus(t, x, st);
    forall p ensures Ledger(t', p) {
      assert Ledger(t, p);
      OrderedPut(t.orders, x, t'.orders[x], t.nextOrder, p);
    }
    RestatusKeys(t, t', x, st);
  }

  lemma {:induction false} StockInv(t: State, p: int, change: int, kind: Kind)
    requires Inv(t) && kind in PUT_IN
    ensures var before := Level(t.stock, p);
      Inv(t.(stock := t.stock[p := before + change], logs := t.logs + [Log(p, change, before, before + change, kind)]))
  {
    var before := Level(t.stock, p);
    var t' :=
        t.(stock := t.stock[p := before + change], logs := t.logs + [Log(p, change, before, before + change, kind)]);
    forall q ensures Ledger(t', q) {
      assert Ledger(t, q);
      Snoc(t.logs, Log(p, change, before, before + change, kind), q);
    }
    forall k | k in t'.keys ensures KeyOk(t', k) { assert KeyOk(t, k); }
  }

  lemma {:induction false} CancelInv(t: State, user: int, x: int)
    requires Inv(t)
    ensures Inv(Cancel(t, user, x).0)
  {
    if x in t.orders && t.orders[x].status == Pending { CancelPendingInv(t, x); }
  }

  lemma {:induction false} ExpireInv(t: State, event: string, x: int, now: int)
    requires Inv(t)
    ensures Inv(Expire(t, event, x, now).0)
  {
    if x in t.orders && t.orders[x].status == Pending { CancelPendingInv(t, x); }
  }

  lemma {:induction false} PayInv(t: State, user: int, x: int)
    requires Inv(t)
    ensures Inv(Pay(t, user, x).0)
  {
    if x in t.orders && t.orders[x].status == Pending { MoveInv(t, x, Paid); }
  }

  lemma {:induction false} FinishInv(t: State, user: int, x: int)
    requires Inv(t)
    ensures Inv(Finish(t, user, x).0)
  {
    if x in t.orders && t.orders[x].status == Paid { MoveInv(t, x, Finished); }
  }

  lemma {:induction false} InitInv(t: State, catalog: Catalog, p: int, quantity: int)
    requires Inv(t)
    ensures Inv(Init(t, catalog, p, quantity).0)
  {
    if p !in t.stock { StockInv(t, p, quantity, InitStock); }
  }

  lemma {:induction false} AddInv(t: State, catalog: Catalog, p: int, quantity: int)
    requires Inv(t)
    ensures Inv(Add(t, catalog, p, quantity).0)
  {
    if p in t.stock { StockInv(t, p, quantity, ManualAdd); }
  }

  // ----- every run

  lemma {:induction false} StepInv(t: State, catalog: Catalog, e: Event)
    requires Inv(t)
    ensures Inv(Step(t, catalog, e).0)
  {
    match e
    case CreateOrder(user, key, items, timeout) => CreateInv(t, catalog, user, key, items, timeout);
    case CancelOrder(user, x) => CancelInv(t, user, x);
    case ExpireOrder(event, x, now) => ExpireInv(t, event, x, now);
    case PayOrder(user, x) => PayInv(t, user, x);
    case FinishOrder(user, x) => FinishInv(t, user, x);
    case InitInventory(p, q) => InitInv(t, catalog, p, q);
    case AddInventory(p, q) => AddInv(t, catalog, p, q);
  }

  lemma {:induction false} RunInv(t: State, es: seq<(Catalog, Event)>)
    requires Inv(t)
    ensures Inv(Run(t, es))
    decreases |es|
  {
    if es != [] {
      StepInv(t, es[0].0, es[0].1);
      RunInv(Step(t, es[0].0, es[0].1).0, es[1..]);
    }
  }

  lemma {:induction false} EmptyInv()
    ensures Inv(EMPTY)
  {
    assert forall p :: Ordered(EMPTY.orders, 0, p) == 0;
    forall p ensures Ledger(EMPTY, p) { assert Ordered(EMPTY.orders, 1, p) == Ordered(EMPTY.orders, 0, p); }
  }

  /** After any run the stock logs of a product form an unbroken chain that ends at its stock, and its
      stock and what the uncancelled orders hold are together all that was ever put in. */
  lemma {:induction false} LogsExplainStock(es: seq<(Catalog, Event)>, p: int)
    ensures var t := Run(EMPTY, es);
      && Unbroken(t.logs, p) && LastAfter(t.logs, p) == Level(t.stock, p)
      && t.nextOrder > 0 && Level(t.stock, p) + Ordered(t.orders, t.nextOrder, p) == Sum(t.logs, p, PUT_IN)
  {
    EmptyInv();
    RunInv(EMPTY, es);
    assert Ledger(Run(EMPTY, es), p);
  }

  /** What a request puts in of product `p`. */
  function PutIn(t: State, catalog: Catalog, e: Event, p: int): int {
    match e
    case InitInventory(q, n) => if q == p && n >= 0 && q in catalog && q !in t.stock then n else 0
    case AddInventory(q, n) => if q == p && n > 0 && q in catalog && q in t.stock then n else 0
    case _ => 0
  }

  function Supplied(t: State, es: seq<(Catalog, Event)>, p: int): int
    decreases |es|
  {
    if es == [] then 0
    else PutIn(t, es[0].0, es[0].1, p) + Supplied(Step(t, es[0].0, es[0].1).0, es[1..], p)
  }

  lemma {:induction false} MovedSupplies(stock: map<int, int>, logs: seq<Log>, items: seq<Line>, back: bool, p: int)
    ensures Sum(Moved(stock, logs, items, back).1, p, PUT_IN) == Sum(logs, p, PUT_IN)
    decreases |items|
  {
    if items != [] {
      var n := |items| - 1;
      var (now, log) := Moved(stock, logs, items[..n], back);
      MovedSupplies(stock, logs, items[..n], back, p);
      var before, q := Level(now, items[n].product), items[n].quantity;
      var change := if back then q else -q;
      Snoc(log, Log(items[n].product, change, before, before + change, if back then OrderRollback else OrderDeduct), p);
    }
  }

  lemma {:induction false} CreateSupplies(t: State, catalog: Catalog, e: Event, p: int)
    requires e.CreateOrder?
    ensures Sum(Step(t, catalog, e).0.logs, p, PUT_IN) == Sum(t.logs, p, PUT_IN)
  {
    if Deduct(t.stock, t.logs, catalog, e.items).Swept? {
      DeductMoves(t.stock, t.logs, catalog, e.items);
      MovedSupplies(t.stock, t.logs, e.items, false, p);
    }
  }

  lemma {:induction false} CancelSupplies(t: State, x: int, p: int)
    requires x in t.orders
    ensures Sum(CancelPending(t, x).0.logs, p, PUT_IN) == Sum(t.logs, p, PUT_IN)
  {
    MovedSupplies(t.stock, t.logs, t.orders[x].items, true, p);
  }

  lemma {:induction false} StepSupplies(t: State, catalog: Catalog, e: Event, p: int)
    ensures Sum(Step(t, catalog, e).0.logs, p, PUT_IN) == Sum(t.logs, p, PUT_IN) + PutIn(t, catalog, e, p)
  {
    match e
    case CreateOrder(_, _, _, _) => CreateSupplies(t, catalog, e, p);
    case CancelOrder(_, x) => if x in t.orders { CancelSupplies(t, x, p); }
    case ExpireOrder(_, x, _) => if x in t.orders { CancelSupplies(t, x, p); }
    case InitInventory(q, n) => Snoc(t.logs, Log(q, n, 0, n, InitStock), p);
    case AddInventory(q, n) => Snoc(t.logs, Log(q, n, Level(t.stock, q), Level(t.stock, q) + n, ManualAdd), p);
    case _ =>
  }

  lemma {:induction false} LogsTellSupply(t: State, es: seq<(Catalog, Event)>, p: int)
    ensures Sum(Run(t, es).logs, p, PUT_IN) == Sum(t.logs, p, PUT_IN) + Supplied(t, es, p)
    decreases |es|
  {
    if es != [] {
      StepSupplies(t, es[0].0, es[0].1, p);
      LogsTellSupply(Step(t, es[0].0, es[0].1).0, es[1..], p);
    }
  }

  /** After any run the stock of a product and what the uncancelled orders hold of it are together exactly what
      the requests have put in. */
  lemma {:induction false} StockIsWhatWasPutIn(es: seq<(Catalog, Event)>, p: int)
    ensures var t := Run(EMPTY, es);
      t.nextOrder > 0 && Level(t.stock, p) + Ordered(t.orders, t.nextOrder, p) == Supplied(EMPTY, es, p)
  {
    LogsExplainStock(es, p);
    LogsTellSupply(EMPTY, es, p);
  }

  /** After any run every idempotency key is settled on one order of its user, no two keys on the same
      one, and there is no order without a key. */
  lemma {:induction false} OneOrderPerKey(es: seq<(Catalog, Event)>)
    ensures var t := Run(EMPTY, es);
      && (forall k | k in t.keys ::
           t.keys[k].order.Some? && t.keys[k].order.value in t.orders && t.orders[t.keys[k].order.value].user == k.0)
      && (forall k, l | k in t.keys && l in t.keys && t.keys[k].order == t.keys[l].order :: k == l)
      && (forall x | x in t.orders :: exists k :: k in t.keys && t.keys[k].order == Some(x))
  {
    EmptyInv();
    RunInv(EMPTY, es);
    var t := Run(EMPTY, es);
    forall k | k in t.keys
      ensures t.keys[k].order.Some? && t.keys[k].order.value in t.orders && t.orders[t.keys[k].order.value].user == k.0
    {
      assert KeyOk(t, k);
    }
    forall x | x in t.orders ensures exists k :: k in t.keys && t.keys[k].order == Some(x) { assert Pointed(t, x); }
  }

  // ----- what an order costs

  ghost function Amount(catalog: Catalog, items: seq<Line>): int
    requires forall i | 0 <= i < |items| :: items[i].product in catalog
  {
    if items == [] then 0
    else
      var n := |items| - 1;
      Amount(catalog, items[..n]) + catalog[items[n].product].price * items[n].quantity
  }

  /** The total of an order is its price in int64: the exact price if and only if that fits. */
  lemma {:induction false} TotalWraps(stock: map<int, int>, logs: seq<Log>, catalog: Catalog, items: seq<Line>)
    requires Deduct(stock, logs, catalog, items).Swept?
    ensures forall i | 0 <= i < |items| :: items[i].product in catalog
    ensures 0 <= Amount(catalog, items) && Deduct(stock, logs, catalog, items).total == Wrap(Amount(catalog, items))
    ensures Deduct(stock, logs, catalog, items).total == Amount(catalog, items) <==> Amount(catalog, items) <= MAX64
    decreases |items|
  {
    if items != [] {
      var n := |items| - 1;
      TotalWraps(stock, logs, catalog, items[..n]);
      assert items == items[..n] + [items[n]];
      ProductPositive(catalog[items[n].product].price, items[n].quantity);
      WrapSum(Amount(catalog, items[..n]), catalog[items[n].product].price * items[n].quantity);
    }
    WrapId(Amount(catalog, items));
  }

  lemma {:induction false} ProductPositive(a: int, b: int)
    requires a > 0 && b > 0
    ensures a * b > 0
  {
  }

  /** The request names each product once, and every product is on sale and in stock. */
  ghost predicate Served(stock: map<int, int>, catalog: Catalog, items: seq<Line>) {
    && NoDuplicates(items)
    && forall i | 0 <= i < |items| ::
         && items[i].product in catalog && catalog[items[i].product].onSale
         && items[i].product in stock && items[i].quantity <= stock[items[i].product]
  }

  ghost predicate AllStorable(catalog: Catalog, items: seq<Line>) {
    forall i | 0 <= i < |items| :: items[i].product in catalog && Storable(catalog[items[i].product], items[i].quantity)
  }

  lemma {:induction false} DeductUntouched(stock: map<int, int>, logs: seq<Log>, catalog: Catalog, items: seq<Line>,
                                           p: int)
    requires Deduct(stock, logs, catalog, items).Swept? && forall i | 0 <= i < |items| :: items[i].product != p
    ensures var s := Deduct(stock, logs, catalog, items).stock;
      (p in s <==> p in stock) && Level(s, p) == Level(stock, p)
    decreases |items|
  {
    if items != [] {
      var n := |items| - 1;
      assert items[n].product != p;
      DeductUntouched(stock, logs, catalog, items[..n], p);
    }
  }

  lemma {:induction false} LastDecides(stock: map<int, int>, logs: seq<Log>, catalog: Catalog, most: seq<Line>,
                                       item: Line)
    requires Served(stock, catalog, most + [item]) && Deduct(stock, logs, catalog, most).Swept?
    ensures item.product in catalog
    ensures if Storable(catalog[item.product], item.quantity) then Deduct(stock, logs, catalog, most + [item]).Swept?
      else Deduct(stock, logs, catalog, most + [item]) == Stopped(StorageError)
  {
    var items, n := most + [item], |most|;
    assert items[n] == item && items[..n] == most;
    forall i | 0 <= i < n ensures most[i].product != item.product { assert items[i] == most[i]; }
    DeductUntouched(stock, logs, catalog, most, item.product);
  }

  lemma {:induction false} DeductIff(stock: map<int, int>, logs: seq<Log>, catalog: Catalog, items: seq<Line>)
    requires Served(stock, catalog, items)
    ensures AllStorable(catalog, items) ==> Deduct(stock, logs, catalog, items).Swept?
    ensures !AllStorable(catalog, items) ==> Deduct(stock, logs, catalog, items) == Stopped(StorageError)
    decreases |items|
  {
    if items != [] {
      var n := |items| - 1;
      var most := items[..n];
      assert items == most + [items[n]] && forall i | 0 <= i < n :: most[i] == items[i];
      DeductIff(stock, logs, catalog, most);
      if AllStorable(catalog, most) { LastDecides(stock, logs, catalog, most, items[n]); }
    }
  }

  /** An order that could be served is stored exactly if the int64 subtotals are positive and their int64 sum
      is not negative, and then for its price in int64; otherwise the tables refuse it and stay unchanged. */
  lemma {:induction false} StoredIff(t: State, catalog: Catalog, user: int, key: string, items: seq<Line>,
                                     timeout: Timeout)
    requires user > 0 && !Blank(key) && |key| <= 128 && (user, key) !in t.keys && Served(t.stock, catalog, items)
    ensures var (t', reply) := Create(t, catalog, user, key, items, timeout);
      if AllStorable(catalog, items) && Wrap(Amount(catalog, items)) >= 0
      then
        && reply == Done(t.nextOrder) && reply.order in t'.orders
        && t'.orders[reply.order].total == Wrap(Amount(catalog, items))
      else t' == t && reply == Denied(StorageError)
  {
    DeductIff(t.stock, t.logs, catalog, items);
    if AllStorable(catalog, items) { TotalWraps(t.stock, t.logs, catalog, items); }
  }

  lemma {:induction false} WrapSum(a: int, b: int)
    ensures Wrap(Wrap(a) + Wrap(b)) == Wrap(a + b)
  {
    WrapAdd(b, Wrap(a));
    WrapAdd(a, b);
  }

  // ----- retries

  lemma {:induction false} HashIsContent(a: seq<Line>, b: seq<Line>)
    ensures Hash(a) == Hash(b) <==> multiset(a) == multiset(b)
  {
    SortSpec(a, ByProductThenQuantity);
    SortSpec(b, ByProductThenQuantity);
    if multiset(a) == multiset(b) { SortedUnique(Hash(a), Hash(b), ByProductThenQuantity); }
  }

  /** Nothing ever takes a key from its order, or changes who placed an order and what it consists of. */
  ghost predicate Kept(t: State, t': State) {
    && (forall k | k in t.keys :: k in t'.keys && t'.keys[k] == t.keys[k])
    && (forall x | x in t.orders ::
         x in t'.orders && t'.orders[x].user == t.orders[x].user && t'.orders[x].items == t.orders[x].items)
  }

  lemma {:induction false} StepKeeps(t: State, catalog: Catalog, e: Event)
    requires t.nextOrder !in t.orders
    ensures Kept(t, Step(t, catalog, e).0)
  {
  }

  lemma {:induction false} RunKeeps(t: State, es: seq<(Catalog, Event)>)
    requires Inv(t)
    ensures Kept(t, Run(t, es))
    decreases |es|
  {
    if es != [] {
      StepInv(t, es[0].0, es[0].1);
      StepKeeps(t, es[0].0, es[0].1);
      RunKeeps(Step(t, es[0].0, es[0].1).0, es[1..]);
    }
  }

  lemma {:induction false} ReplayAnswers(t: State, catalog: Catalog, user: int, key: string, items: seq<Line>,
                                         timeout: Timeout)
    requires Inv(t) && (user, key) in t.keys
    ensures KeyOk(t, (user, key))
    ensures var x := t.keys[(user, key)].order.value;
      Create(t, catalog, user, key, items, timeout) ==
        (t, if multiset(items) == multiset(t.orders[x].items) then Done(x) else Denied(KeyConflict))
  {
    assert KeyOk(t, (user, key));
    HashIsContent(items, t.orders[t.keys[(user, key)].order.value].items);
  }

  /** Once a request has created order `x`, the same key with the same items in any order returns `x`
      for ever after, whatever has become of it, and with any other items is a conflict; neither
      changes anything. */
  lemma {:induction false} RetryReturnsTheOrder(
    es: seq<(Catalog, Event)>, catalog: Catalog, user: int, key: string, items: seq<Line>, timeout: Timeout, x: int,
    later: seq<(Catalog, Event)>, catalog': Catalog, items': seq<Line>, timeout': Timeout)
    requires Create(Run(EMPTY, es), catalog, user, key, items, timeout).1 == Done(x)
    ensures var t := Run(Create(Run(EMPTY, es), catalog, user, key, items, timeout).0, later);
      Create(t, catalog', user, key, items', timeout') ==
        (t, if multiset(items') == multiset(items) then Done(x) else Denied(KeyConflict))
  {
    EmptyInv();
    RunInv(EMPTY, es);
    var t0 := Run(EMPTY, es);
    var t1 := Create(t0, catalog, user, key, items, timeout).0;
    CreateInv(t0, catalog, user, key, items, timeout);
    RunInv(t1, later);
    RunKeeps(t1, later);
    var t := Run(t1, later);
    CreatedRecord(t0, catalog, user, key, items, timeout, x);
    ReplayAnswers(t, catalog', user, key, items', timeout');
  }

  lemma {:induction false} CreatedRecord(t: State, catalog: Catalog, user: int, key: string, items: seq<Line>,
                                         timeout: Timeout, x: int)
    requires Inv(t) && Create(t, catalog, user, key, items, timeout).1 == Done(x)
    ensures var t' := Create(t, catalog, user, key, items, timeout).0;
      && (user, key) in t'.keys && t'.keys[(user, key)].order == Some(x)
      && x in t'.orders && multiset(t'.orders[x].items) == multiset(items)
  {
    if (user, key) in t.keys { ReplayAnswers(t, catalog, user, key, items, timeout); }
  }

  // ----- orders and stock over time

  predicate Follows(a: Status, b: Status) { a == b || a == Pending || (a == Paid && b == Finished) }

  lemma {:induction false} StepFollows(t: State, catalog: Catalog, e: Event, x: int)
    requires t.nextOrder !in t.orders && x in t.orders
    ensures var t' := Step(t, catalog, e).0; x in t'.orders && Follows(t.orders[x].status, t'.orders[x].status)
  {
  }

  /** An order only ever goes from Pending to Paid to Finished or from Pending to Cancelled. */
  lemma {:induction false} OrderLifeCycle(t: State, es: seq<(Catalog, Event)>, x: int)
    requires Inv(t) && x in t.orders
    ensures x in Run(t, es).orders && Follows(t.orders[x].status, Run(t, es).orders[x].status)
    decreases |es|
  {
    if es != [] {
      StepFollows(t, es[0].0, es[0].1, x);
      StepInv(t, es[0].0, es[0].1);
      OrderLifeCycle(Step(t, es[0].0, es[0].1).0, es[1..], x);
    }
  }

  /** The stock rows of a pending order are there, so that cancelling it never fails. */
  lemma {:induction false} PendingCanBeCancelled(es: seq<(Catalog, Event)>, x: int)
    requires x in Run(EMPTY, es).orders && Run(EMPTY, es).orders[x].status == Pending
    ensures var t := Run(EMPTY, es);
      var (t', reply) := Cancel(t, t.orders[x].user, x);
      reply == Done(x) && x in t'.orders && t'.orders[x].status == Cancelled
  {
    EmptyInv();
    RunInv(EMPTY, es);
    CancelPendingInv(Run(EMPTY, es), x);
  }

  ghost predicate AtLeastZero(stock: map<int, int>) { forall p | p in stock :: stock[p] >= 0 }

  ghost predicate AllPositive(items: seq<Line>) { forall i | 0 <= i < |items| :: items[i].quantity > 0 }

  ghost predicate NonNegative(t: State) {
    AtLeastZero(t.stock) && forall x | x in t.orders :: AllPositive(t.orders[x].items)
  }

  lemma {:induction false} DeductNonNegative(t: State, catalog: Catalog, items: seq<Line>)
    requires Deduct(t.stock, t.logs, catalog, items).Swept? && AtLeastZero(t.stock)
    ensures AtLeastZero(Deduct(t.stock, t.logs, catalog, items).stock) && AllPositive(items)
    decreases |items|
  {
    if items != [] {
      DeductNonNegative(t, catalog, items[..|items| - 1]);
      assert items == items[..|items| - 1] + [items[|items| - 1]];
    }
  }

  lemma {:induction false} GivenBackNonNegative(stock: map<int, int>, logs: seq<Log>, items: seq<Line>)
    requires AtLeastZero(stock) && AllPositive(items)
    ensures AtLeastZero(Moved(stock, logs, items, true).0)
    decreases |items|
  {
    if items != [] {
      var n := |items| - 1;
      assert items[n].quantity > 0;
      GivenBackNonNegative(stock, logs, items[..n]);
      var (now, log) := Moved(stock, logs, items[..n], true);
      assert Moved(stock, logs, items, true).0 ==
          now[items[n].product := Level(now, items[n].product) + items[n].quantity];
    }
  }

  lemma {:induction false} StepNonNegative(t: State, catalog: Catalog, e: Event)
    requires NonNegative(t)
    ensures NonNegative(Step(t, catalog, e).0)
  {
    if e.CreateOrder? && Deduct(t.stock, t.logs, catalog, e.items).Swept? { DeductNonNegative(t, catalog, e.items); }
    if (e.CancelOrder? || e.ExpireOrder?) && e.order in t.orders {
      GivenBackNonNegative(t.stock, t.logs, t.orders[e.order].items);
    }
  }

  /** Stock never goes below zero, and no order holds a quantity that is not positive. */
  lemma {:induction false} StockNeverNegative(t: State, es: seq<(Catalog, Event)>)
    requires NonNegative(t)
    ensures NonNegative(Run(t, es))
    decreases |es|
  {
    if es != [] {
      StepNonNegative(t, es[0].0, es[0].1);
      StockNeverNegative(Step(t, es[0].0, es[0].1).0, es[1..]);
    }
  }
}
