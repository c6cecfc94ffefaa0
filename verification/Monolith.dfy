/** The older order service: orders, stock, stock logs and idempotency keys in one database, every
    operation one serial transaction. Requests are hashed through their sorted items; the hash is taken
    to be injective, so it is the sorted list itself. */
module Monolith {
  import opened Wrappers
  import opened Items
  import opened Sorting

  datatype Status = Pending | Paid | Finished | Cancelled
  datatype Order = Order(user: int, status: Status, items: seq<Line>, total: int)

  datatype Kind = InitStock | ManualAdd | OrderDeduct | OrderRollback
  datatype Log = Log(product: int, change: int, before: int, after: int, kind: Kind)

  /** The outbox row of an order: its event and when the order expires. */
  datatype Timeout = Timeout(event: string, at: int)

  /** `order == None` while the order is being created. */
  datatype Record = Record(hash: seq<Line>, order: Option<int>)

  datatype State = State(
    stock: map<int, int>,
    logs: seq<Log>,
    orders: map<int, Order>,
    keys: map<(int, string), Record>,
    timeouts: map<int, Timeout>,
    nextOrder: int)

  const EMPTY := State(map[], [], map[], map[], map[], 1)

  datatype Offer = Offer(price: int, onSale: bool)
  type Catalog = map<int, Offer>

  datatype Error =
    | InvalidUser | InvalidKey | KeyConflict | BeingCreated | KeyStateInvalid | DuplicateItem
    | ProductNotFound | OffSale | InventoryNotFound | InsufficientStock
    | OrderNotFound | AlreadyPaid | AlreadyFinished | AlreadyCancelled | NotPaid | NotExpired
    | CancelFailed | PayFailed | FinishFailed
    | InvalidQuantity | InventoryExists | StorageError

  datatype Reply = Done(order: int) | Denied(error: Error)

  // ----- the loops over the items of an order

  datatype Sweep = Swept(stock: map<int, int>, logs: seq<Log>, total: int) | Stopped(error: Error)

  /** What the constraints on order items ask of a line; its subtotal is taken in int64. */
  predicate Storable(offer: Offer, quantity: int) {
    offer.price > 0 && quantity > 0 && Wrap(offer.price * quantity) > 0
  }

  function Deduct(stock: map<int, int>, logs: seq<Log>, catalog: Catalog, items: seq<Line>): Sweep
    decreases |items|
  {
    if items == [] then Swept(stock, logs, 0)
    else
      var n := |items| - 1;
      var done, item := Deduct(stock, logs, catalog, items[..n]), items[n];
      if done.Stopped? then done
      else if item.product !in catalog then Stopped(ProductNotFound)
      else if !catalog[item.product].onSale then Stopped(OffSale)
      else if item.product !in done.stock then Stopped(InventoryNotFound)
      else
        var before := done.stock[item.product];
        var after := before - item.quantity;
        if after < 0 then Stopped(InsufficientStock)
        else if !Storable(catalog[item.product], item.quantity) then Stopped(StorageError)
        else
          Swept(done.stock[item.product := after],
                done.logs + [Log(item.product, -item.quantity, before, after, OrderDeduct)],
                Wrap(done.total + Wrap(catalog[item.product].price * item.quantity)))
  }

  function Level(stock: map<int, int>, p: int): int { if p in stock then stock[p] else 0 }

  /** Stock and logs after the items have been taken, or given back, one by one. */
  function Moved(stock: map<int, int>, logs: seq<Log>, items: seq<Line>, back: bool): (map<int, int>, seq<Log>)
    decreases |items|
  {
    if items == [] then (stock, logs)
    else
      var n := |items| - 1;
      var ((now, log), item) := (Moved(stock, logs, items[..n], back), items[n]);
      var before, change := Level(now, item.product), if back then item.quantity else -item.quantity;
      (now[item.product := before + change],
       log + [Log(item.product, change, before, before + change, if back then OrderRollback else OrderDeduct)])
  }

  predicate Stocked(stock: map<int, int>, items: seq<Line>) {
    forall i | 0 <= i < |items| :: items[i].product in stock
  }

  predicate ByProductThenQuantity(a: Line, b: Line) {
    a.product < b.product || (a.product == b.product && a.quantity <= b.quantity)
  }

  function Hash(items: seq<Line>): seq<Line> { Sort(items, ByProductThenQuantity) }

  predicate NoDuplicates(items: seq<Line>) {
    forall i, j | 0 <= i < j < |items| :: items[i].product != items[j].product
  }

  // ----- the transactions

  predicate Blank(key: string) { forall i | 0 <= i < |key| :: key[i] == ' ' || '\t' <= key[i] <= '\r' }

  function Create(t: State, catalog: Catalog, user: int, key: string, items: seq<Line>,
                  timeout: Timeout): (State, Reply) {
    if user <= 0 then (t, Denied(InvalidUser))
    else if Blank(key) || |key| > 128 then (t, Denied(InvalidKey))
    else if (user, key) in t.keys then (t, Replay(t, user, key, items))
    else if !NoDuplicates(items) then (t, Denied(DuplicateItem))
    else
      var x, done := t.nextOrder, Deduct(t.stock, t.logs, catalog, items);
      if done.Stopped? then (t, Denied(done.error))
      else if done.total < 0 then (t, Denied(StorageError))
      else
        (State(done.stock, done.logs, t.orders[x := Order(user, Pending, items, done.total)],
               t.keys[(user, key) := Record(Hash(items), Some(x))], t.timeouts[x := timeout], x + 1),
         Done(x))
  }

  /** A request whose key is taken. */
  function Replay(t: State, user: int, key: string, items: seq<Line>): Reply
    requires (user, key) in t.keys
  {
    var r := t.keys[(user, key)];
    if r.hash != Hash(items) then Denied(KeyConflict)
    else if r.order == None then Denied(BeingCreated)
    else if r.order.value <= 0 || r.order.value !in t.orders || t.orders[r.order.value].user != user
        then Denied(KeyStateInvalid)
    else Done(r.order.value)
  }

  /** The cancellation proper, guarded by the status as the other status changes are. */
  function CancelPending(t: State, x: int): (State, Reply)
    requires x in t.orders
  {
    var (stock, logs) := Moved(t.stock, t.logs, t.orders[x].items, true);
    if t.orders[x].status != Pending then (t, Denied(CancelFailed))
    else if !Stocked(t.stock, t.orders[x].items) then (t, Denied(InventoryNotFound))
    else (Restatus(t, x, Cancelled).(stock := stock, logs := logs), Done(x))
  }

  function Restatus(t: State, x: int, st: Status): State
    requires x in t.orders
  {
    t.(orders := t.orders[x := t.orders[x].(status := st)])
  }

  predicate Owns(t: State, user: int, x: int) { x in t.orders && t.orders[x].user == user }

  function Cancel(t: State, user: int, x: int): (State, Reply) {
    if !Owns(t, user, x) then (t, Denied(OrderNotFound))
    else match t.orders[x].status
      case Cancelled => (t, Done(x))
      case Paid => (t, Denied(AlreadyPaid))
      case Finished => (t, Denied(AlreadyFinished))
      case Pending => CancelPending(t, x)
  }

  /** The timeout: nothing to do for an unknown event or an order that is no longer pending. */
  function Expire(t: State, event: string, x: int, now: int): (State, Reply) {
    if x !in t.timeouts || t.timeouts[x].event != event then (t, Done(x))
    else if now < t.timeouts[x].at then (t, Denied(NotExpired))
    else if x !in t.orders || t.orders[x].status != Pending then (t, Done(x))
    else CancelPending(t, x)
  }

  /** What PayOrder makes of the order it reads, if it does not go on to the update. */
  function PayRefusal(t: State, user: int, x: int): Option<Error> {
    if !Owns(t, user, x) then Some(OrderNotFound)
    else match t.orders[x].status
      case Paid => Some(AlreadyPaid)
      case Finished => Some(AlreadyFinished)
      case Cancelled => Some(AlreadyCancelled)
      case Pending => None
  }

  function FinishRefusal(t: State, user: int, x: int): Option<Error> {
    if !Owns(t, user, x) then Some(OrderNotFound)
    else match t.orders[x].status
      case Pending => Some(NotPaid)
      case Cancelled => Some(AlreadyCancelled)
      case Finished => Some(AlreadyFinished)
      case Paid => None
  }

  /** The guarded updates of PayOrder and FinishOrder, each a transaction of its own. */
  function Pay(t: State, user: int, x: int): (State, Reply) {
    if PayRefusal(t, user, x) == None then (Restatus(t, x, Paid), Done(x)) else (t, Denied(PayFailed))
  }

  function Finish(t: State, user: int, x: int): (State, Reply) {
    if FinishRefusal(t, user, x) == None then (Restatus(t, x, Finished), Done(x)) else (t, Denied(FinishFailed))
  }

  function Init(t: State, catalog: Catalog, p: int, quantity: int): (State, Reply) {
    if quantity < 0 then (t, Denied(InvalidQuantity))
    else if p !in catalog then (t, Denied(ProductNotFound))
    else if p in t.stock then (t, Denied(InventoryExists))
    else (t.(stock := t.stock[p := quantity], logs := t.logs + [Log(p, quantity, 0, quantity, InitStock)]), Done(p))
  }

  function Add(t: State, catalog: Catalog, p: int, quantity: int): (State, Reply) {
    if quantity <= 0 then (t, Denied(InvalidQuantity))
    else if p !in t.stock then (t, Denied(InventoryNotFound))
    else if p !in catalog then (t, Denied(ProductNotFound))
    else
      var before := t.stock[p];
      (t.(stock := t.stock[p := before + quantity],
          logs := t.logs + [Log(p, quantity, before, before + quantity, ManualAdd)]), Done(p))
  }

  // ----- runs

  datatype Event =
    | CreateOrder(user: int, key: string, items: seq<Line>, timeout: Timeout)
    | CancelOrder(user: int, order: int)
    | ExpireOrder(event: string, order: int, now: int)
    | PayOrder(user: int, order: int)
    | FinishOrder(user: int, order: int)
    | InitInventory(product: int, quantity: int)
    | AddInventory(product: int, quantity: int)

  function Step(t: State, catalog: Catalog, e: Event): (State, Reply) {
    match e
    case CreateOrder(user, key, items, timeout) => Create(t, catalog, user, key, items, timeout)
    case CancelOrder(user, x) => Cancel(t, user, x)
    case ExpireOrder(event, x, now) => Expire(t, event, x, now)
    case PayOrder(user, x) => Pay(t, user, x)
    case FinishOrder(user, x) => Finish(t, user, x)
    case InitInventory(p, q) => Init(t, catalog, p, q)
    case AddInventory(p, q) => Add(t, catalog, p, q)
  }

  /** Each event comes with the catalogue as it is at that time. */
  function Run(t: State, es: seq<(Catalog, Event)>): State
    decreases |es|
  {
    if es == [] then t else Run(Step(t, es[0].0, es[0].1).0, es[1..])
  }

  // ----- the ledger

  /** The quantity after the last log of product `p`. */
  function LastAfter(logs: seq<Log>, p: int): int {
    if logs == [] then 0
    else if logs[|logs| - 1].product == p then logs[|logs| - 1].after
    else LastAfter(logs[..|logs| - 1], p)
  }

  /** The logs of `p` form a chain: each starts from the quantity at which the one before it ended. */
  predicate Unbroken(logs: seq<Log>, p: int) {
    logs == [] ||
    (var n := |logs| - 1;
     Unbroken(logs[..n], p)
     && (logs[n].product == p ==>
          logs[n].before == LastAfter(logs[..n], p) && logs[n].after == logs[n].before + logs[n].change))
  }

  /** What the logs of the given kinds add up to. */
  function Sum(logs: seq<Log>, p: int, kinds: set<Kind>): int {
    if logs == [] then 0
    else
      var n := |logs| - 1;
      Sum(logs[..n], p, kinds) + if logs[n].product == p && logs[n].kind in kinds then logs[n].change else 0
  }

  const PUT_IN := {InitStock, ManualAdd}

  /** What the uncancelled orders below `n` hold of product `p`. */
  function Ordered(orders: map<int, Order>, n: nat, p: int): int {
    if n == 0 then 0
    else Ordered(orders, n - 1, p) + if n - 1 in orders && orders[n - 1].status != Cancelled
        then SumQty(orders[n - 1].items, p) else 0
  }

  ghost predicate Ledger(t: State, p: int) {
    && Unbroken(t.logs, p) && LastAfter(t.logs, p) == Level(t.stock, p)
    && t.nextOrder >= 0 && Level(t.stock, p) + Ordered(t.orders, t.nextOrder, p) == Sum(t.logs, p, PUT_IN)
  }

  /** Every key record is complete and points to an order of that user made from those items. */
  ghost predicate KeyOk(t: State, k: (int, string))
    requires k in t.keys
  {
    && k.0 > 0 && !Blank(k.1) && |k.1| <= 128 && t.keys[k].order.Some?
    && var x := t.keys[k].order.value;
       0 < x && x in t.orders && t.orders[x].user == k.0 && t.keys[k].hash == Hash(t.orders[x].items)
  }

  ghost predicate Pointed(t: State, x: int) { exists k :: k in t.keys && t.keys[k].order == Some(x) }

  ghost predicate KeysOk(t: State) {
    && (forall k | k in t.keys :: KeyOk(t, k))
    && (forall k, l | k in t.keys && l in t.keys && t.keys[k].order == t.keys[l].order :: k == l)
    && (forall x | x in t.orders :: Pointed(t, x))
  }

  ghost predicate OrdersOk(t: State) {
    && t.nextOrder > 0
    && (forall x | x in t.orders :: 0 < x < t.nextOrder)
    && (forall x | x in t.orders :: Stocked(t.stock, t.orders[x].items))
  }

  ghost predicate Inv(t: State) {
    OrdersOk(t) && KeysOk(t) && forall p :: Ledger(t, p)
  }
}
