/** The tables of inventory-service and the meaning of its four transactions, as functions from
    table contents to table contents. Identifiers are taken as they are after trimming. */
module Ledger {
  import opened Wrappers
  import opened Items

  /** A reservation row is stored as "pending" while its stock is held. */
  datatype ReservationStatus = Held | Confirmed | Released
  datatype Row = Row(available: int, reserved: int, version: int)
  datatype Reservation = Reservation(order: int, status: ReservationStatus, lines: seq<Line>)
  datatype Change = Initialized | Added | ReservedChange | ConfirmedChange | ReleasedChange
  datatype StockLog = StockLog(product: int, change: Change, quantity: int, ref: string)

  /** `byOrder` is the unique index on the reservation's order. */
  datatype Tables = Tables(
    rows: map<int, Row>,
    reservations: map<string, Reservation>,
    byOrder: map<int, string>,
    logs: seq<StockLog>)

  const EMPTY := Tables(map[], map[], map[], [])

  datatype Error =
    | InvalidAmount
    | InventoryNotFound(product: int)
    | Insufficient(product: int)
    | ReservationNotFound
    | InvalidTransition
    | StorageError

  datatype Reply = Granted(id: string) | Declined(error: Error)

  // ----- the transactions

  function Init(t: Tables, product: int, quantity: int): (Tables, Option<Error>) {
    if product <= 0 || quantity < 0 then (t, Some(InvalidAmount))
    else if product in t.rows then (t, Some(StorageError))
    else (t.(rows := t.rows[product := Row(quantity, 0, 0)],
             logs := t.logs + [StockLog(product, Initialized, quantity, "")]), None)
  }

  function Add(t: Tables, product: int, quantity: int): (Tables, Option<Error>) {
    if product <= 0 || quantity <= 0 then (t, Some(InvalidAmount))
    else if product !in t.rows then (t, Some(InventoryNotFound(product)))
    else
      var r := t.rows[product];
      (t.(rows := t.rows[product := Row(r.available + quantity, r.reserved, r.version + 1)],
          logs := t.logs + [StockLog(product, Added, quantity, "")]), None)
  }

  /** The first line Reserve cannot serve, in lock order. A line that is not positive passes Reserve's own
      guards and is refused by the CHECK constraints of the tables it is written to. */
  function ReserveRefusal(rows: map<int, Row>, lines: seq<Line>): Option<Error> {
    if lines == [] then None
    else if lines[0].product !in rows then Some(InventoryNotFound(lines[0].product))
    else if rows[lines[0].product].available < lines[0].quantity then Some(Insufficient(lines[0].product))
    else if lines[0].quantity <= 0 then Some(StorageError)
    else ReserveRefusal(rows, lines[1..])
  }

  /** The first line whose reserved-quantity guard would refuse a transition. */
  function TransitionRefusal(rows: map<int, Row>, lines: seq<Line>): Option<Error> {
    if lines == [] then None
    else if lines[0].product !in rows then Some(StorageError)
    else if rows[lines[0].product].reserved < lines[0].quantity then Some(InvalidTransition)
    else TransitionRefusal(rows, lines[1..])
  }

  /** What a stage does with a quantity: hold it, or confirm or release what is held. */
  datatype Move = Holding | Confirming | Releasing

  function MoveRow(r: Row, q: int, move: Move): Row {
    match move
    case Holding => r.(available := r.available - q, reserved := r.reserved + q)
    case Confirming => r.(reserved := r.reserved - q)
    case Releasing => r.(available := r.available + q, reserved := r.reserved - q)
  }

  /** Every row after moving each line's quantity once. */
  function Moved(rows: map<int, Row>, lines: seq<Line>, move: Move): map<int, Row> {
    map p | p in rows ::
      MoveRow(rows[p], SumQty(lines, p), move).(version := rows[p].version + if HasProduct(lines, p) then 1 else 0)
  }

  /** One log entry per line. */
  function LineLogs(lines: seq<Line>, change: Change, up: bool, ref: string): seq<StockLog> {
    if lines == [] then []
    else
      var n := |lines| - 1;
      LineLogs(lines[..n], change, up, ref) + [StockLog(lines[n].product, change, Signed(lines[n].quantity, up), ref)]
  }

  function Signed(q: int, up: bool): int { if up then q else -q }

  function Reserve(t: Tables, order: int, id: string, items: seq<Line>): (Tables, Reply) {
    match Normalize(items)
    case Refused => (t, Declined(InvalidAmount))
    case Accepted(lines) =>
      if order <= 0 then (t, Declined(InvalidAmount))
      else if order in t.byOrder then (t, Granted(t.byOrder[order]))
      else if id in t.reservations then (t, Declined(StorageError))
      else
        match ReserveRefusal(t.rows, lines)
        case Some(e) => (t, Declined(e))
        case None => (Hold(t, order, id, lines), Granted(id))
  }

  function Hold(t: Tables, order: int, id: string, lines: seq<Line>): Tables {
    Tables(
      Moved(t.rows, lines, Holding),
      t.reservations[id := Reservation(order, Held, lines)],
      t.byOrder[order := id],
      t.logs + LineLogs(lines, ReservedChange, false, id))
  }

  function Transition(t: Tables, id: string, target: ReservationStatus): (Tables, Reply)
    requires target != Held
  {
    if id == "" || id !in t.reservations then (t, Declined(ReservationNotFound))
    else
      var r := t.reservations[id];
      if r.status == target then (t, Granted(id))
      else if r.status != Held then (t, Declined(InvalidTransition))
      else
        match TransitionRefusal(t.rows, r.lines)
        case Some(e) => (t, Declined(e))
        case None => (Settle(t, id, target), Granted(id))
  }

  function Settle(t: Tables, id: string, target: ReservationStatus): Tables
    requires id in t.reservations && target != Held
  {
    var r := t.reservations[id];
    var release := target == Released;
    t.(rows := Moved(t.rows, r.lines, if release then Releasing else Confirming),
       reservations := t.reservations[id := r.(status := target)],
       logs := t.logs + LineLogs(r.lines, if release then ReleasedChange else ConfirmedChange, release, id))
  }

  // ----- what the tables mean

  /** The part of a reservation in status `st` that concerns product `p`. */
  function Share(r: Reservation, p: int, st: ReservationStatus): int {
    if r.status == st then SumQty(r.lines, p) else 0
  }

  ghost function AnyKey(m: map<string, Reservation>): string
    requires m != map[]
  {
    var k :| k in m; k
  }

  /** The quantity of `p` in all reservations with status `st`. */
  ghost function Total(m: map<string, Reservation>, p: int, st: ReservationStatus): int
    decreases |m|
  {
    if m == map[] then 0
    else
      var k := AnyKey(m);
      assert |m - {k}| == |m| - 1 by { assert (m - {k}).Keys == m.Keys - {k}; }
      Share(m[k], p, st) + Total(m - {k}, p, st)
  }

  /** The sum of the log quantities of `p` over the given kinds of change. */
  function LogSum(logs: seq<StockLog>, p: int, kinds: set<Change>): int {
    if logs == [] then 0
    else
      var n := |logs| - 1;
      LogSum(logs[..n], p, kinds) + if logs[n].product == p && logs[n].change in kinds then logs[n].quantity else 0
  }

  /** How many log entries are exactly `e`. */
  function Count(logs: seq<StockLog>, e: StockLog): nat {
    if logs == [] then 0
    else Count(logs[..|logs| - 1], e) + if logs[|logs| - 1] == e then 1 else 0
  }

  const SUPPLY := {Initialized, Added}
  const MOVEMENTS := {Initialized, Added, ReservedChange, ReleasedChange}

  function RowOf(t: Tables, p: int): Row { if p in t.rows then t.rows[p] else Row(0, 0, 0) }

  /** Stock of `p` is conserved: what is held is what the held reservations ask, what is available is
      what the non-confirm logs add up to, and available, held and confirmed stock together are all
      the stock ever put in. */
  ghost predicate SumsUp(t: Tables, p: int) {
    var r := RowOf(t, p);
    && r.reserved == Total(t.reservations, p, Held)
    && r.available == LogSum(t.logs, p, MOVEMENTS)
    && r.available + r.reserved + Total(t.reservations, p, Confirmed) == LogSum(t.logs, p, SUPPLY)
  }

  /** And no counter of `p` is below zero. */
  ghost predicate Balanced(t: Tables, p: int) {
    RowOf(t, p).available >= 0 && RowOf(t, p).reserved >= 0 && SumsUp(t, p)
  }

  /** How often a stock movement of this shape has happened, judging by the reservations alone. */
  ghost function Expected(reservations: map<string, Reservation>, e: StockLog): nat {
    if e.ref !in reservations then 0
    else
      var r := reservations[e.ref];
      match e.change
      case ReservedChange => if Find(r.lines, e.product) == Some(-e.quantity) then 1 else 0
      case ConfirmedChange => if r.status == Confirmed && Find(r.lines, e.product) == Some(-e.quantity) then 1 else 0
      case ReleasedChange => if r.status == Released && Find(r.lines, e.product) == Some(e.quantity) then 1 else 0
      case _ => 0
  }

  /** Each line of each reservation moved stock exactly once when it was reserved, exactly once more
      when it was confirmed or released, and nothing else moved stock. */
  ghost predicate MovedOnce(t: Tables) {
    forall e: StockLog | e.change !in SUPPLY :: Count(t.logs, e) == Expected(t.reservations, e)
  }

  /** Lines of products that have a row, each product once. */
  ghost predicate Placed(t: Tables, lines: seq<Line>) {
    Ascending(lines) && forall i | 0 <= i < |lines| :: lines[i].product in t.rows
  }

  ghost predicate LinesOk(t: Tables, lines: seq<Line>) {
    Placed(t, lines) && forall i | 0 <= i < |lines| :: 0 <= lines[i].quantity
  }

  /** Orders and reservations belong to each other one to one. */
  ghost predicate Filed(t: Tables) {
    && (forall id | id in t.reservations ::
          var r := t.reservations[id];
          id != "" && r.order in t.byOrder && t.byOrder[r.order] == id && Placed(t, r.lines))
    && (forall o | o in t.byOrder :: t.byOrder[o] in t.reservations && t.reservations[t.byOrder[o]].order == o)
  }

  ghost predicate Indexed(t: Tables) {
    Filed(t) && forall id | id in t.reservations :: LinesOk(t, t.reservations[id].lines)
  }

  /** Every unit of stock is accounted for, whatever the sign of the quantities asked. */
  ghost predicate Accounted(t: Tables) {
    Filed(t) && MovedOnce(t) && forall p :: SumsUp(t, p)
  }

  /** Accounted for, with nothing below zero. */
  ghost predicate Valid(t: Tables) {
    Indexed(t) && MovedOnce(t) && forall p :: Balanced(t, p)
  }
}
