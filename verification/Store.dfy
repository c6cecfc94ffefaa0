/** inventory-service as it runs: a database whose transactions walk the rows one by one and roll
    back on the first refusal. Every method is the transaction function of `Ledger` and keeps the
    ledger's laws. */
module Store {
  import opened Wrappers
  import opened Sorting
  import opened Items
  import opened Ledger
  import opened LedgerProof

  lemma {:induction false} MovedStep(rows: map<int, Row>, lines: seq<Line>, n: nat, move: Move)
    requires Ascending(lines) && n < |lines| && lines[n].product in rows
    ensures var l, r := lines[n], rows[lines[n].product];
      && Moved(rows, lines[..n], move)[l.product] == r
      && Moved(rows, lines[..n + 1], move) ==
        Moved(rows, lines[..n], move)[l.product := MoveRow(r, l.quantity, move).(version := r.version + 1)]
  {
    var next := lines[..n + 1];
    assert next[..n] == lines[..n];
    LastIsNew(next);
    NoneSumsToZero(lines[..n], lines[n].product);
  }

  lemma {:induction false} LineLogsStep(lines: seq<Line>, n: nat, change: Change, up: bool, ref: string)
    requires n < |lines|
    ensures LineLogs(lines[..n + 1], change, up, ref) ==
      LineLogs(lines[..n], change, up, ref) + [StockLog(lines[n].product, change, Signed(lines[n].quantity, up), ref)]
  {
    assert lines[..n + 1][..n] == lines[..n];
  }

  /** The row loop of Reserve inside its transaction: lock, check and move one line after the other. The
      constraints of the row and of the reservation item refuse a line that is not positive. */
  method HoldLines(rows: map<int, Row>, logs: seq<StockLog>, lines: seq<Line>, id: string)
    returns (refusal: Option<Error>, txRows: map<int, Row>, txLogs: seq<StockLog>)
    requires Ascending(lines)
    ensures refusal == ReserveRefusal(rows, lines)
    ensures refusal == None ==>
      txRows == Moved(rows, lines, Holding) && txLogs == logs + LineLogs(lines, ReservedChange, false, id)
  {
    txRows, txLogs := rows, logs;
    for n := 0 to |lines|
      invariant txRows == Moved(rows, lines[..n], Holding)
      invariant txLogs == logs + LineLogs(lines[..n], ReservedChange, false, id)
      invariant ReserveRefusal(rows, lines) == ReserveRefusal(rows, lines[n..])
    {
      var item := lines[n];
      assert lines[n..][0] == item && lines[n..][1..] == lines[n + 1..];
      if item.product !in txRows {
        return Some(InventoryNotFound(item.product)), txRows, txLogs;
      }
      var row := txRows[item.product];
      MovedStep(rows, lines, n, Holding);
      LineLogsStep(lines, n, ReservedChange, false, id);
      if row.available < item.quantity {
        return Some(Insufficient(item.product)), txRows, txLogs;
      }
      if item.quantity <= 0 {
        return Some(StorageError), txRows, txLogs;
      }
      txRows := txRows[item.product :=
        Row(row.available - item.quantity, row.reserved + item.quantity, row.version + 1)];
      txLogs := txLogs + [StockLog(item.product, ReservedChange, -item.quantity, id)];
    }
    assert lines[..|lines|] == lines && lines[|lines|..] == [];
    refusal := None;
  }

  /** The row loop of a transition, with its reserved-quantity guard. */
  method SettleLines(rows: map<int, Row>, logs: seq<StockLog>, items: seq<Line>, released: bool, id: string)
    returns (refusal: Option<Error>, txRows: map<int, Row>, txLogs: seq<StockLog>)
    requires Ascending(items)
    ensures refusal == TransitionRefusal(rows, items)
    ensures refusal == None ==>
      && txRows == Moved(rows, items, if released then Releasing else Confirming)
      && txLogs == logs + LineLogs(items, if released then ReleasedChange else ConfirmedChange, released, id)
  {
    txRows, txLogs := rows, logs;
    var change := if released then ReleasedChange else ConfirmedChange;
    for n := 0 to |items|
      invariant txRows == Moved(rows, items[..n], if released then Releasing else Confirming)
      invariant txLogs == logs + LineLogs(items[..n], change, released, id)
      invariant TransitionRefusal(rows, items) == TransitionRefusal(rows, items[n..])
    {
      var item := items[n];
      assert items[n..][0] == item && items[n..][1..] == items[n + 1..];
      if item.product !in txRows {
        return Some(StorageError), txRows, txLogs;
      }
      var row := txRows[item.product];
      MovedStep(rows, items, n, if released then Releasing else Confirming);
      LineLogsStep(items, n, change, released, id);
      if row.reserved < item.quantity {
        return Some(InvalidTransition), txRows, txLogs;
      }
      var updated := row.(reserved := row.reserved - item.quantity, version := row.version + 1);
      if released {
        updated := updated.(available := row.available + item.quantity);
      }
      txRows := txRows[item.product := updated];
      txLogs := txLogs + [StockLog(item.product, change, if released then item.quantity else -item.quantity, id)];
    }
    assert items[..|items|] == items && items[|items|..] == [];
    refusal := None;
  }

  /** On lawful tables a reservation can be settled exactly if it is held or settled that way already,
      and is then settled that way. */
  ghost predicate SettlesLawfully(t: Tables, id: string, target: ReservationStatus, t': Tables, reply: Reply) {
    Valid(t) ==>
      && Valid(t')
      && (reply == Granted(id) <==>
           id in t.reservations && (t.reservations[id].status == Held || t.reservations[id].status == target))
      && (reply == Granted(id) ==> id in t'.reservations && t'.reservations[id].status == target)
      && (reply != Granted(id) ==> t' == t)
  }

  lemma {:induction false} TransitionSettles(t: Tables, id: string, target: ReservationStatus)
    requires target != Held
    ensures SettlesLawfully(t, id, target, Transition(t, id, target).0, Transition(t, id, target).1)
  {
    if Valid(t) {
      TransitionValid(t, id, target);
      if id in t.reservations && t.reservations[id].status == Held { GuardNeverFails(t, id, target); }
    }
  }

  class Database {
    var rows: map<int, Row>
    var reservations: map<string, Reservation>
    var byOrder: map<int, string>
    var logs: seq<StockLog>

    constructor ()
      ensures Contents() == EMPTY
    {
      rows, reservations, byOrder, logs := map[], map[], map[], [];
    }

    ghost function Contents(): Tables
      reads this
    {
      Tables(rows, reservations, byOrder, logs)
    }

    method InitStock(product: int, quantity: int) returns (error: Option<Error>)
      modifies this
      ensures (Contents(), error) == Init(old(Contents()), product, quantity)
      ensures error == None <==> product > 0 && quantity >= 0 && product !in old(rows)
      ensures rows == if error == None then old(rows)[product := Row(quantity, 0, 0)] else old(rows)
      ensures old(Valid(Contents())) ==> Valid(Contents())
    {
      if Valid(Contents()) { InitValid(Contents(), product, quantity); }
      if product <= 0 || quantity < 0 {
        return Some(InvalidAmount);
      }
      if product in rows {
        return Some(StorageError);
      }
      rows := rows[product := Row(quantity, 0, 0)];
      logs := logs + [StockLog(product, Initialized, quantity, "")];
      error := None;
    }

    method AddStock(product: int, quantity: int) returns (error: Option<Error>)
      modifies this
      ensures (Contents(), error) == Add(old(Contents()), product, quantity)
      ensures error == None <==> product > 0 && quantity > 0 && product in old(rows)
      ensures error == None ==>
        && rows.Keys == old(rows).Keys && rows[product].reserved == old(rows)[product].reserved
        && rows[product].available == old(rows)[product].available + quantity
        && forall p | p in rows && p != product :: rows[p] == old(rows)[p]
      ensures error.Some? ==> Contents() == old(Contents())
      ensures old(Valid(Contents())) ==> Valid(Contents())
    {
      if Valid(Contents()) { AddValid(Contents(), product, quantity); }
      if product <= 0 || quantity <= 0 {
        return Some(InvalidAmount);
      }
      if product !in rows {
        return Some(InventoryNotFound(product));
      }
      var row := rows[product];
      rows := rows[product := row.(available := row.available + quantity, version := row.version + 1)];
      logs := logs + [StockLog(product, Added, quantity, "")];
      error := None;
    }

    /** `generated` is the identifier drawn when the request carries none. */
    method ReserveStock(order: int, requested: string, generated: string, items: seq<Line>) returns (reply: Reply)
      modifies this
      ensures (Contents(), reply) ==
        Reserve(old(Contents()), order, if requested == "" then generated else requested, items)
      ensures reply.Declined? ==> Contents() == old(Contents())
      ensures old(Valid(Contents())) && (requested != "" || generated != "") ==> Valid(Contents())
      ensures reply.Granted? ==> order in byOrder && byOrder[order] == reply.id
    {
      if Valid(Contents()) && (requested != "" || generated != "") {
        ReserveValid(Contents(), order, if requested == "" then generated else requested, items);
      }
      var normalized := NormalizeItems(items);
      if normalized.Refused? || order <= 0 {
        return Declined(InvalidAmount);
      }
      var lines := normalized.lines;
      var id := if requested == "" then generated else requested;
      if order in byOrder {
        return Granted(byOrder[order]);
      }
      if id in reservations {
        return Declined(StorageError);
      }
      MergeSpec(items);
      var refusal, txRows, txLogs := HoldLines(rows, logs, lines, id);
      if refusal.Some? {
        return Declined(refusal.value);
      }
      rows, logs := txRows, txLogs;
      reservations := reservations[id := Reservation(order, Held, lines)];
      byOrder := byOrder[order := id];
      reply := Granted(id);
    }

    method TransitionTo(id: string, target: ReservationStatus) returns (reply: Reply)
      requires target != Held && Filed(Contents())
      modifies this
      ensures (Contents(), reply) == Transition(old(Contents()), id, target)
      ensures SettlesLawfully(old(Contents()), id, target, Contents(), reply)
      ensures reply.Declined? ==> Contents() == old(Contents())
    {
      TransitionSettles(Contents(), id, target);
      if id == "" || id !in reservations {
        return Declined(ReservationNotFound);
      }
      var reservation := reservations[id];
      if reservation.status == target {
        return Granted(id);
      }
      if reservation.status != Held {
        return Declined(InvalidTransition);
      }
      var items := Sort(reservation.lines, ByProduct);
      SortSorted(reservation.lines, ByProduct);
      var refusal, txRows, txLogs := SettleLines(rows, logs, items, target == Released, id);
      if refusal.Some? {
        return Declined(refusal.value);
      }
      rows, logs := txRows, txLogs;
      reservations := reservations[id := reservation.(status := target)];
      reply := Granted(id);
    }

    method Confirm(id: string) returns (reply: Reply)
      requires Filed(Contents())
      modifies this
      ensures (Contents(), reply) == Transition(old(Contents()), id, Confirmed)
      ensures SettlesLawfully(old(Contents()), id, Confirmed, Contents(), reply)
    {
      reply := TransitionTo(id, Confirmed);
    }

    method Release(id: string) returns (reply: Reply)
      requires Filed(Contents())
      modifies this
      ensures (Contents(), reply) == Transition(old(Contents()), id, Released)
      ensures SettlesLawfully(old(Contents()), id, Released, Contents(), reply)
    {
      reply := TransitionTo(id, Released);
    }
  }
}
