/** Conservation of stock over every sequence of inventory transactions. */
module LedgerProof {
  import opened Wrappers
  import opened Items
  import opened Ledger

  // ----- sums over reservations

  /** The total may be split at any key, not only at the one the definition picks. */
  lemma {:induction false} TotalSplit(m: map<string, Reservation>, p: int, st: ReservationStatus, k: string)
    requires k in m
    ensures Total(m, p, st) == Share(m[k], p, st) + Total(m - {k}, p, st)
    decreases |m|
  {
    var k0 := AnyKey(m);
    assert (m - {k0}).Keys == m.Keys - {k0} && (m - {k}).Keys == m.Keys - {k};
    if k != k0 {
      TotalSplit(m - {k0}, p, st, k);
      TotalSplit(m - {k}, p, st, k0);
      assert m - {k0} - {k} == m - {k} - {k0};
    }
  }

  lemma {:induction false} TotalPut(m: map<string, Reservation>, p: int, st: ReservationStatus, k: string,
                                    r: Reservation)
    ensures Total(m[k := r], p, st) ==
      Total(m, p, st) + Share(r, p, st) - if k in m then Share(m[k], p, st) else 0
  {
    TotalSplit(m[k := r], p, st, k);
    if k in m {
      TotalSplit(m, p, st, k);
      assert m[k := r] - {k} == m - {k};
    } else {
      assert m[k := r] - {k} == m;
    }
  }

  lemma {:induction false} TotalAtLeast(m: map<string, Reservation>, p: int, st: ReservationStatus)
    requires forall id | id in m :: forall i | 0 <= i < |m[id].lines| :: m[id].lines[i].quantity >= 0
    ensures Total(m, p, st) >= 0
    ensures forall id | id in m :: Share(m[id], p, st) <= Total(m, p, st)
    decreases |m|
  {
    if m != map[] {
      var k := AnyKey(m);
      assert (m - {k}).Keys == m.Keys - {k};
      TotalAtLeast(m - {k}, p, st);
      SumNonNegative(m[k].lines, p);
      forall id | id in m ensures Share(m[id], p, st) <= Total(m, p, st) {
        if id != k { assert id in m - {k} && (m - {k})[id] == m[id]; }
      }
    }
  }

  // ----- sums and counts over logs

  lemma {:induction false} LogSumOne(logs: seq<StockLog>, e: StockLog, p: int, kinds: set<Change>)
    ensures LogSum(logs + [e], p, kinds) ==
      LogSum(logs, p, kinds) + if e.product == p && e.change in kinds then e.quantity else 0
  {
    assert (logs + [e])[..|logs|] == logs;
  }

  lemma {:induction false} LogSumLines(logs: seq<StockLog>, lines: seq<Line>, c: Change, up: bool, ref: string,
                                       p: int, kinds: set<Change>)
    ensures LogSum(logs + LineLogs(lines, c, up, ref), p, kinds) ==
      LogSum(logs, p, kinds) + if c in kinds then Signed(SumQty(lines, p), up) else 0
  {
    if lines == [] {
      assert logs + LineLogs(lines, c, up, ref) == logs;
    } else {
      var n := |lines| - 1;
      var e := StockLog(lines[n].product, c, Signed(lines[n].quantity, up), ref);
      LogSumLines(logs, lines[..n], c, up, ref, p, kinds);
      assert logs + LineLogs(lines, c, up, ref) == (logs + LineLogs(lines[..n], c, up, ref)) + [e];
      LogSumOne(logs + LineLogs(lines[..n], c, up, ref), e, p, kinds);
    }
  }

  lemma {:induction false} CountSnoc(logs: seq<StockLog>, last: StockLog, e: StockLog)
    ensures Count(logs + [last], e) == Count(logs, e) + if e == last then 1 else 0
  {
    assert (logs + [last])[..|logs|] == logs;
  }

  lemma {:induction false} CountAppend(a: seq<StockLog>, b: seq<StockLog>, e: StockLog)
    ensures Count(a + b, e) == Count(a, e) + Count(b, e)
  {
    if b == [] {
      assert a + b == a;
    } else {
      var n := |b| - 1;
      assert a + b == (a + b[..n]) + [b[n]];
      CountAppend(a, b[..n], e);
      CountSnoc(a + b[..n], b[n], e);
    }
  }

  /** The entries written for ascending lines are the lines, once each. */
  lemma {:induction false} LineLogsOnce(lines: seq<Line>, c: Change, up: bool, ref: string, e: StockLog)
    requires Ascending(lines)
    ensures Count(LineLogs(lines, c, up, ref), e) ==
      if e.change == c && e.ref == ref && Find(lines, e.product) == Some(Signed(e.quantity, up)) then 1 else 0
  {
    if lines != [] {
      var n := |lines| - 1;
      var last := StockLog(lines[n].product, c, Signed(lines[n].quantity, up), ref);
      LineLogsOnce(lines[..n], c, up, ref, e);
      FindSnoc(lines, e.product);
      if e.product == lines[n].product {
        AscendingSum(lines[..n], e.product);
        LastIsNew(lines);
      }
      CountSnoc(LineLogs(lines[..n], c, up, ref), last, e);
    }
  }

  // ----- each transaction keeps the ledger valid

  lemma {:induction false} SupplyMovesNothing(t: Tables, e: StockLog)
    requires MovedOnce(t) && e.change in SUPPLY
    ensures forall f: StockLog | f.change !in SUPPLY :: Count(t.logs + [e], f) == Expected(t.reservations, f)
  {
    forall f: StockLog | f.change !in SUPPLY ensures Count(t.logs + [e], f) == Expected(t.reservations, f) {
      CountSnoc(t.logs, e, f);
    }
  }

  lemma {:induction false} ValidIsAccounted(t: Tables)
    requires Valid(t)
    ensures Accounted(t)
  {
    forall p ensures SumsUp(t, p) { assert Balanced(t, p); }
  }

  lemma {:induction false} SupplyBalances(t: Tables, t': Tables, e: StockLog, p: int)
    requires Balanced(t, p) && e.change in SUPPLY && e.quantity >= 0
    requires t'.reservations == t.reservations && t'.logs == t.logs + [e]
    requires RowOf(t', p).reserved == RowOf(t, p).reserved
    requires RowOf(t', p).available == RowOf(t, p).available + if p == e.product then e.quantity else 0
    ensures Balanced(t', p)
  {
    LogSumOne(t.logs, e, p, MOVEMENTS);
    LogSumOne(t.logs, e, p, SUPPLY);
  }

  lemma {:induction false} InitValid(t: Tables, product: int, quantity: int)
    requires Valid(t)
    ensures Valid(Init(t, product, quantity).0)
  {
    var t' := Init(t, product, quantity).0;
    if t' != t {
      var e := StockLog(product, Initialized, quantity, "");
      assert MovedOnce(t') by { SupplyMovesNothing(t, e); }
      forall p ensures Balanced(t', p) {
        assert Balanced(t, p);
        SupplyBalances(t, t', e, p);
      }
    }
  }

  lemma {:induction false} AddValid(t: Tables, product: int, quantity: int)
    requires Valid(t)
    ensures Valid(Add(t, product, quantity).0)
  {
    var t' := Add(t, product, quantity).0;
    if t' != t {
      var e := StockLog(product, Added, quantity, "");
      assert MovedOnce(t') by { SupplyMovesNothing(t, e); }
      forall p ensures Balanced(t', p) {
        assert Balanced(t, p);
        SupplyBalances(t, t', e, p);
      }
    }
  }

  /** What Reserve itself asks of the rows. */
  predicate Servable(rows: map<int, Row>, lines: seq<Line>) {
    forall i | 0 <= i < |lines| :: lines[i].product in rows && lines[i].quantity <= rows[lines[i].product].available
  }

  predicate AllPositive(lines: seq<Line>) { forall i | 0 <= i < |lines| :: 0 < lines[i].quantity }

  lemma {:induction false} RefusalMeans(rows: map<int, Row>, lines: seq<Line>)
    ensures ReserveRefusal(rows, lines) == None <==> Servable(rows, lines) && AllPositive(lines)
    ensures Servable(rows, lines) && !AllPositive(lines) ==> ReserveRefusal(rows, lines) == Some(StorageError)
  {
    if lines != [] {
      RefusalMeans(rows, lines[1..]);
      assert lines == [lines[0]] + lines[1..];
    }
  }

  /** With ascending lines, what product `p` is asked is one line or nothing. */
  lemma {:induction false} SumIsLine(lines: seq<Line>, p: int)
    requires Ascending(lines)
    ensures HasProduct(lines, p) ==> Line(p, SumQty(lines, p)) in lines
    ensures !HasProduct(lines, p) ==> SumQty(lines, p) == 0
  {
    AscendingSum(lines, p);
    FindIn(lines, Line(p, SumQty(lines, p)));
    if !HasProduct(lines, p) { NoneSumsToZero(lines, p); }
  }

  lemma {:induction false} HoldSumsUp(t: Tables, order: int, id: string, lines: seq<Line>, p: int)
    requires SumsUp(t, p) && id !in t.reservations && Placed(t, lines)
    ensures SumsUp(Hold(t, order, id, lines), p)
  {
    SumIsLine(lines, p);
    var r := Reservation(order, Held, lines);
    TotalPut(t.reservations, p, Held, id, r);
    TotalPut(t.reservations, p, Confirmed, id, r);
    LogSumLines(t.logs, lines, ReservedChange, false, id, p, MOVEMENTS);
    LogSumLines(t.logs, lines, ReservedChange, false, id, p, SUPPLY);
  }

  /** Holding lines that can be served balances product `p` exactly if what is held of it stays at or
      above zero. */
  lemma {:induction false} HoldBalanced(t: Tables, order: int, id: string, lines: seq<Line>, p: int)
    requires Balanced(t, p) && id !in t.reservations && Servable(t.rows, lines) && Ascending(lines)
    ensures Balanced(Hold(t, order, id, lines), p) <==> Stays(t, lines, p)
  {
    SumIsLine(lines, p);
    HoldSumsUp(t, order, id, lines, p);
  }

  lemma {:induction false} HoldMovesOnce(t: Tables, order: int, id: string, lines: seq<Line>, e: StockLog)
    requires Count(t.logs, e) == Expected(t.reservations, e)
    requires id !in t.reservations && Ascending(lines) && e.change !in SUPPLY
    ensures var t' := Hold(t, order, id, lines); Count(t'.logs, e) == Expected(t'.reservations, e)
  {
    LineLogsOnce(lines, ReservedChange, false, id, e);
    CountAppend(t.logs, LineLogs(lines, ReservedChange, false, id), e);
  }

  lemma {:induction false} HoldFiled(t: Tables, order: int, id: string, lines: seq<Line>)
    requires Filed(t) && id !in t.reservations && order !in t.byOrder && id != "" && Placed(t, lines)
    ensures Filed(Hold(t, order, id, lines))
  {
    var t' := Hold(t, order, id, lines);
    assert t'.rows.Keys == t.rows.Keys;
    forall k | k in t'.reservations ensures Placed(t', t'.reservations[k].lines) {
      if k != id { assert Placed(t, t.reservations[k].lines); }
    }
  }

  lemma {:induction false} HoldAccounted(t: Tables, order: int, id: string, lines: seq<Line>)
    requires Accounted(t) && id !in t.reservations && order !in t.byOrder && id != "" && Placed(t, lines)
    ensures Accounted(Hold(t, order, id, lines))
  {
    HoldFiled(t, order, id, lines);
    forall p ensures SumsUp(Hold(t, order, id, lines), p) {
      assert SumsUp(t, p);
      HoldSumsUp(t, order, id, lines, p);
    }
    forall e: StockLog | e.change !in SUPPLY
      ensures var t' := Hold(t, order, id, lines); Count(t'.logs, e) == Expected(t'.reservations, e)
    {
      HoldMovesOnce(t, order, id, lines, e);
    }
  }

  lemma {:induction false} HoldValid(t: Tables, order: int, id: string, lines: seq<Line>)
    requires Valid(t) && id !in t.reservations && order !in t.byOrder && id != ""
    requires Servable(t.rows, lines) && Ascending(lines) && forall i | 0 <= i < |lines| :: 0 <= lines[i].quantity
    ensures Valid(Hold(t, order, id, lines))
  {
    var t' := Hold(t, order, id, lines);
    ValidIsAccounted(t);
    HoldAccounted(t, order, id, lines);
    forall k | k in t'.reservations ensures LinesOk(t', t'.reservations[k].lines) {
      if k != id { assert LinesOk(t, t.reservations[k].lines); }
    }
    forall p ensures Balanced(t', p) {
      assert Balanced(t, p);
      SumNonNegative(lines, p);
      HoldBalanced(t, order, id, lines, p);
    }
  }

  /** Reserve keeps every law, whatever it is asked for. */
  lemma {:induction false} ReserveValid(t: Tables, order: int, id: string, items: seq<Line>)
    requires Valid(t) && id != ""
    ensures Valid(Reserve(t, order, id, items).0)
  {
    if Reserve(t, order, id, items).0 != t {
      MergeSpec(items);
      RefusalMeans(t.rows, Merge(items));
      HoldValid(t, order, id, Merge(items));
    }
  }

  /** The request passes every guard that Reserve has in its code. */
  ghost predicate Passes(t: Tables, order: int, id: string, items: seq<Line>) {
    && WellFormed(items) && order > 0 && order !in t.byOrder && id != "" && id !in t.reservations
    && Servable(t.rows, Merge(items))
  }

  /** A request that passes Reserve's guards is refused by the tables, and leaves them unchanged, exactly
      if some merged sum is not positive, which needs an overflow; otherwise it is granted. */
  lemma {:induction false} RefusedByTablesIff(t: Tables, order: int, id: string, items: seq<Line>)
    requires Passes(t, order, id, items)
    ensures Reserve(t, order, id, items) == (t, Declined(StorageError)) <==>
      exists l :: l in Merge(items) && l.quantity <= 0
    ensures Reserve(t, order, id, items) == (Hold(t, order, id, Merge(items)), Granted(id)) <==>
      forall l | l in Merge(items) :: 0 < l.quantity
    ensures Fits(items) ==> Reserve(t, order, id, items).1.Granted?
  {
    var lines := Merge(items);
    RefusalMeans(t.rows, lines);
    MergedExactIffFits(items);
    forall i | 0 <= i < |lines| ensures lines[i] in lines {}
    if !AllPositive(lines) {
      var i :| 0 <= i < |lines| && lines[i].quantity <= 0;
      assert lines[i] in lines && lines[i].quantity <= 0;
    }
  }

  lemma {:induction false} GuardMeans(rows: map<int, Row>, lines: seq<Line>)
    ensures TransitionRefusal(rows, lines) == None <==>
      forall i | 0 <= i < |lines| :: lines[i].product in rows && lines[i].quantity <= rows[lines[i].product].reserved
  {
    if lines != [] {
      GuardMeans(rows, lines[1..]);
      assert lines == [lines[0]] + lines[1..];
    }
  }

  /** The reserved-quantity guard of a transition never fails: a held reservation can always be
      confirmed and can always be released. */
  lemma {:induction false} GuardNeverFails(t: Tables, id: string, target: ReservationStatus)
    requires Valid(t) && id in t.reservations && t.reservations[id].status == Held && target != Held
    ensures TransitionRefusal(t.rows, t.reservations[id].lines) == None
    ensures Transition(t, id, target) == (Settle(t, id, target), Granted(id))
  {
    var lines := t.reservations[id].lines;
    forall i | 0 <= i < |lines|
      ensures lines[i].product in t.rows && lines[i].quantity <= t.rows[lines[i].product].reserved
    {
      var p := lines[i].product;
      FindIn(lines, lines[i]);
      AscendingSum(lines, p);
      TotalAtLeast(t.reservations, p, Held);
      assert Balanced(t, p);
      assert Share(t.reservations[id], p, Held) == lines[i].quantity;
    }
    GuardMeans(t.rows, lines);
  }

  lemma {:induction false} SettleSumsUp(t: Tables, id: string, target: ReservationStatus, p: int)
    requires SumsUp(t, p) && id in t.reservations && t.reservations[id].status == Held && target != Held
    requires Placed(t, t.reservations[id].lines)
    ensures SumsUp(Settle(t, id, target), p)
  {
    var r := t.reservations[id];
    SumIsLine(r.lines, p);
    TotalPut(t.reservations, p, Held, id, r.(status := target));
    TotalPut(t.reservations, p, Confirmed, id, r.(status := target));
    var c, up := if target == Released then ReleasedChange else ConfirmedChange, target == Released;
    LogSumLines(t.logs, r.lines, c, up, id, p, MOVEMENTS);
    LogSumLines(t.logs, r.lines, c, up, id, p, SUPPLY);
  }

  lemma {:induction false} SettleFiled(t: Tables, id: string, target: ReservationStatus)
    requires Filed(t) && id in t.reservations && target != Held
    ensures Filed(Settle(t, id, target))
  {
    var t' := Settle(t, id, target);
    assert t'.rows.Keys == t.rows.Keys;
    forall k | k in t'.reservations ensures Placed(t', t'.reservations[k].lines) {
      assert Placed(t, t.reservations[k].lines);
    }
  }

  lemma {:induction false} SettleAccounted(t: Tables, id: string, target: ReservationStatus)
    requires Accounted(t) && id in t.reservations && t.reservations[id].status == Held && target != Held
    ensures Accounted(Settle(t, id, target))
  {
    SettleFiled(t, id, target);
    assert Placed(t, t.reservations[id].lines);
    forall p ensures SumsUp(Settle(t, id, target), p) {
      assert SumsUp(t, p);
      SettleSumsUp(t, id, target, p);
    }
    forall e: StockLog | e.change !in SUPPLY
      ensures var t' := Settle(t, id, target); Count(t'.logs, e) == Expected(t'.reservations, e)
    {
      SettleMovesOnce(t.reservations, t.logs, id, target, e);
    }
  }

  lemma {:induction false} SettleBalanced(t: Tables, id: string, target: ReservationStatus, p: int)
    requires Valid(t) && id in t.reservations && t.reservations[id].status == Held && target != Held
    requires SumsUp(Settle(t, id, target), p)
    ensures Balanced(Settle(t, id, target), p)
  {
    var r := t.reservations[id];
    assert Balanced(t, p);
    assert LinesOk(t, r.lines);
    SumNonNegative(r.lines, p);
    TotalAtLeast(t.reservations, p, Held);
    assert Share(r, p, Held) <= Total(t.reservations, p, Held);
  }

  lemma {:induction false} SettleValid(t: Tables, id: string, target: ReservationStatus)
    requires Valid(t) && id in t.reservations && t.reservations[id].status == Held && target != Held
    ensures Valid(Settle(t, id, target))
  {
    var t' := Settle(t, id, target);
    ValidIsAccounted(t);
    SettleAccounted(t, id, target);
    forall k | k in t'.reservations
      ensures LinesOk(t', t'.reservations[k].lines)
    {
      assert LinesOk(t, t.reservations[k].lines);
    }
    forall p ensures Balanced(t', p) { SettleBalanced(t, id, target, p); }
  }

  /** A settled reservation expects one more entry per line, of the kind its target writes. */
  lemma {:induction false} SettleExpects(m: map<string, Reservation>, id: string, target: ReservationStatus,
                                         e: StockLog)
    requires id in m && m[id].status == Held && target != Held
    ensures var c, up := if target == Released then ReleasedChange else ConfirmedChange, target == Released;
      Expected(m[id := m[id].(status := target)], e) ==
        Expected(m, e) +
        if e.change == c && e.ref == id && Find(m[id].lines, e.product) == Some(Signed(e.quantity, up)) then 1 else 0
  {
    if e.ref == id {
      match e.change {
        case Initialized =>
        case Added =>
        case ReservedChange =>
        case ConfirmedChange =>
        case ReleasedChange =>
      }
    }
  }

  lemma {:induction false} SettleMovesOnce(m: map<string, Reservation>, logs: seq<StockLog>, id: string,
                                           target: ReservationStatus, e: StockLog)
    requires Count(logs, e) == Expected(m, e)
    requires id in m && m[id].status == Held && target != Held && Ascending(m[id].lines)
    ensures var release := target == Released;
      var written := LineLogs(m[id].lines, if release then ReleasedChange else ConfirmedChange, release, id);
      Count(logs + written, e) == Expected(m[id := m[id].(status := target)], e)
  {
    var c, up := if target == Released then ReleasedChange else ConfirmedChange, target == Released;
    CountAppend(logs, LineLogs(m[id].lines, c, up, id), e);
    LineLogsOnce(m[id].lines, c, up, id, e);
    SettleExpects(m, id, target, e);
  }

  lemma {:induction false} TransitionValid(t: Tables, id: string, target: ReservationStatus)
    requires Valid(t) && target != Held
    ensures Valid(Transition(t, id, target).0)
  {
    if Transition(t, id, target).0 != t { SettleValid(t, id, target); }
  }

  // ----- whole runs

  datatype Event =
    | InitEvent(product: int, quantity: int)
    | AddEvent(product: int, quantity: int)
    | ReserveEvent(order: int, id: string, items: seq<Line>)
    | TransitionEvent(id: string, target: ReservationStatus)

  /** Reservations carry an identifier; transitions ask for "confirmed" or "released". */
  ghost predicate Asked(e: Event) {
    match e
    case ReserveEvent(_, id, _) => id != ""
    case TransitionEvent(_, target) => target != Held
    case _ => true
  }

  ghost predicate AllAsked(es: seq<Event>) { forall i | 0 <= i < |es| :: Asked(es[i]) }

  ghost function Step(t: Tables, e: Event): Tables
    requires Asked(e)
  {
    match e
    case InitEvent(p, q) => Init(t, p, q).0
    case AddEvent(p, q) => Add(t, p, q).0
    case ReserveEvent(o, id, items) => Reserve(t, o, id, items).0
    case TransitionEvent(id, target) => Transition(t, id, target).0
  }

  ghost function Run(t: Tables, es: seq<Event>): Tables
    requires AllAsked(es)
  {
    if es == [] then t else Step(Run(t, es[..|es| - 1]), es[|es| - 1])
  }

  lemma {:induction false} StepValid(t: Tables, e: Event)
    requires Valid(t) && Asked(e)
    ensures Valid(Step(t, e))
  {
    match e
    case InitEvent(p, q) => InitValid(t, p, q);
    case AddEvent(p, q) => AddValid(t, p, q);
    case ReserveEvent(o, id, items) => ReserveValid(t, o, id, items);
    case TransitionEvent(id, target) => TransitionValid(t, id, target);
  }

  lemma {:induction false} RunValid(t: Tables, es: seq<Event>)
    requires Valid(t) && AllAsked(es)
    ensures Valid(Run(t, es))
  {
    if es != [] {
      RunValid(t, es[..|es| - 1]);
      StepValid(Run(t, es[..|es| - 1]), es[|es| - 1]);
    }
  }

  /** Stock is conserved after any sequence of requests, delivered in any order and any number of times:
      every product sums up, no counter is below zero, and every reservation line has moved stock exactly
      once per stage it went through. */
  lemma {:induction false} StockConserved(es: seq<Event>)
    requires AllAsked(es)
    ensures Valid(Run(EMPTY, es))
  {
    RunValid(EMPTY, es);
  }

  ghost predicate StoredPositive(t: Tables) {
    forall id | id in t.reservations :: AllPositive(t.reservations[id].lines)
  }

  /** Every quantity ever stored is positive. */
  lemma {:induction false} StoredQuantitiesArePositive(es: seq<Event>)
    requires AllAsked(es)
    ensures StoredPositive(Run(EMPTY, es))
  {
    if es != [] {
      var t, e := Run(EMPTY, es[..|es| - 1]), es[|es| - 1];
      StoredQuantitiesArePositive(es[..|es| - 1]);
      if e.ReserveEvent? { RefusalMeans(t.rows, Merge(e.items)); }
    }
  }

  /** After any sequence of requests a held reservation can be confirmed and can be released. */
  lemma {:induction false} HeldCanBeSettled(es: seq<Event>, id: string, target: ReservationStatus)
    requires AllAsked(es) && target != Held
    requires id in Run(EMPTY, es).reservations && Run(EMPTY, es).reservations[id].status == Held
    ensures Transition(Run(EMPTY, es), id, target) == (Settle(Run(EMPTY, es), id, target), Granted(id))
  {
    StockConserved(es);
    GuardNeverFails(Run(EMPTY, es), id, target);
  }

  /** What a request puts in of product `p`: an initial stock if the product has none yet, and what is added to
      a product that has one. */
  function PutIn(t: Tables, e: Event, p: int): int {
    match e
    case InitEvent(q, n) => if q == p && q > 0 && n >= 0 && q !in t.rows then n else 0
    case AddEvent(q, n) => if q == p && q > 0 && n > 0 && q in t.rows then n else 0
    case _ => 0
  }

  /** What the requests of a run put in of product `p`, going by what they ask for. */
  ghost function Supplied(t: Tables, es: seq<Event>, p: int): int
    requires AllAsked(es)
  {
    if es == [] then 0
    else
      var n := |es| - 1;
      Supplied(t, es[..n], p) + PutIn(Run(t, es[..n]), es[n], p)
  }

  lemma {:induction false} StepSupplies(t: Tables, e: Event, p: int)
    requires Asked(e)
    ensures LogSum(Step(t, e).logs, p, SUPPLY) == LogSum(t.logs, p, SUPPLY) + PutIn(t, e, p)
  {
    match e
    case InitEvent(q, n) => LogSumOne(t.logs, StockLog(q, Initialized, n, ""), p, SUPPLY);
    case AddEvent(q, n) => LogSumOne(t.logs, StockLog(q, Added, n, ""), p, SUPPLY);
    case ReserveEvent(_, id, items) => LogSumLines(t.logs, Merge(items), ReservedChange, false, id, p, SUPPLY);
    case TransitionEvent(id, target) => TransitionSupplies(t, id, target, p);
  }

  lemma {:induction false} TransitionSupplies(t: Tables, id: string, target: ReservationStatus, p: int)
    requires target != Held
    ensures LogSum(Transition(t, id, target).0.logs, p, SUPPLY) == LogSum(t.logs, p, SUPPLY)
  {
    if id in t.reservations {
      var c, up := if target == Released then ReleasedChange else ConfirmedChange, target == Released;
      LogSumLines(t.logs, t.reservations[id].lines, c, up, id, p, SUPPLY);
    }
  }

  lemma {:induction false} LogsTellSupply(t: Tables, es: seq<Event>, p: int)
    requires AllAsked(es)
    ensures LogSum(Run(t, es).logs, p, SUPPLY) == LogSum(t.logs, p, SUPPLY) + Supplied(t, es, p)
  {
    if es != [] {
      var n := |es| - 1;
      LogsTellSupply(t, es[..n], p);
      StepSupplies(Run(t, es[..n]), es[n], p);
    }
  }

  /** After any sequence of requests what is available, held and confirmed of a product is together exactly what
      the requests have put in, whatever has been written to the logs. */
  lemma {:induction false} StockIsWhatWasPutIn(es: seq<Event>, p: int)
    requires AllAsked(es)
    ensures var t := Run(EMPTY, es);
      RowOf(t, p).available + RowOf(t, p).reserved + Total(t.reservations, p, Confirmed) == Supplied(EMPTY, es, p)
  {
    StockConserved(es);
    assert Balanced(Run(EMPTY, es), p);
    LogsTellSupply(EMPTY, es, p);
  }

  /** As long as all the stock ever put in of a product fits in a BIGINT, so does everything the tables hold
      about it. */
  lemma {:induction false} CountersFit(es: seq<Event>, p: int)
    requires AllAsked(es) && Supplied(EMPTY, es, p) <= MAX64
    ensures var t := Run(EMPTY, es);
      && 0 <= RowOf(t, p).available <= MAX64 && 0 <= RowOf(t, p).reserved <= MAX64
      && forall id | id in t.reservations && t.reservations[id].status != Released ::
           0 <= SumQty(t.reservations[id].lines, p) <= MAX64
  {
    var t := Run(EMPTY, es);
    StockConserved(es);
    assert Balanced(t, p);
    StockIsWhatWasPutIn(es, p);
    forall id | id in t.reservations ensures 0 <= SumQty(t.reservations[id].lines, p) {
      assert LinesOk(t, t.reservations[id].lines);
      SumNonNegative(t.reservations[id].lines, p);
    }
    TotalAtLeast(t.reservations, p, Held);
    TotalAtLeast(t.reservations, p, Confirmed);
    forall id | id in t.reservations && t.reservations[id].status != Released
      ensures SumQty(t.reservations[id].lines, p) <= MAX64
    {
      assert Share(t.reservations[id], p, t.reservations[id].status) == SumQty(t.reservations[id].lines, p);
    }
  }

  /** A stored reservation keeps its order and lines, and a settled one keeps its status. */
  ghost predicate Keeps(t: Tables, t': Tables) {
    forall id | id in t.reservations ::
      && id in t'.reservations
      && t'.reservations[id].order == t.reservations[id].order
      && t'.reservations[id].lines == t.reservations[id].lines
      && (t.reservations[id].status != Held ==> t'.reservations[id].status == t.reservations[id].status)
  }

  lemma {:induction false} StepKeeps(t: Tables, e: Event)
    requires Asked(e)
    ensures Keeps(t, Step(t, e))
  {
  }

  /** Confirm and Release exclude each other for ever: over any further run a reservation that was
      confirmed stays confirmed and one that was released stays released. */
  lemma {:induction false} SettledForEver(t: Tables, es: seq<Event>)
    requires AllAsked(es)
    ensures Keeps(t, Run(t, es))
  {
    if es != [] {
      SettledForEver(t, es[..|es| - 1]);
      StepKeeps(Run(t, es[..|es| - 1]), es[|es| - 1]);
    }
  }

  /** The index from orders to reservations only grows. */
  ghost predicate IndexKept(t: Tables, t': Tables) {
    forall o | o in t.byOrder :: o in t'.byOrder && t'.byOrder[o] == t.byOrder[o]
  }

  lemma {:induction false} IndexForEver(t: Tables, es: seq<Event>)
    requires AllAsked(es)
    ensures IndexKept(t, Run(t, es))
  {
    if es != [] {
      IndexForEver(t, es[..|es| - 1]);
      StepKeepsIndex(Run(t, es[..|es| - 1]), es[|es| - 1]);
    }
  }

  lemma {:induction false} StepKeepsIndex(t: Tables, e: Event)
    requires Asked(e)
    ensures IndexKept(t, Step(t, e))
  {
  }

  /** A request that was granted once is granted for ever after, with the same answer and without any
      change, however often it is repeated and whatever has been requested in between. */
  lemma {:induction false} RepeatsChangeNothing(t: Tables, e: Event, es: seq<Event>)
    requires Asked(e) && Answer(t, e).Granted? && AllAsked(es)
    ensures var t' := Run(Step(t, e), es); Step(t', e) == t' && Answer(t', e) == Answer(t, e)
  {
    IndexForEver(Step(t, e), es);
    SettledForEver(Step(t, e), es);
  }

  /** The reply to a request; stocking a product is repeated by nobody. */
  function Answer(t: Tables, e: Event): Reply
    requires e.TransitionEvent? ==> e.target != Held
  {
    match e
    case ReserveEvent(o, id, items) => Reserve(t, o, id, items).1
    case TransitionEvent(id, target) => Transition(t, id, target).1
    case _ => Declined(StorageError)
  }

  // ----- what the constraint on stored quantities is for: the same transaction without it, which is `Hold`

  ghost predicate Lawful(t: Tables) { MovedOnce(t) && forall p :: Balanced(t, p) }

  /** Without constraints a request that passes Reserve's guards would leave the tables lawful exactly if no
      product's held stock were taken below zero. */
  lemma {:induction false} UncheckedIsLawfulIff(t: Tables, order: int, id: string, items: seq<Line>)
    requires Valid(t) && Passes(t, order, id, items)
    ensures Lawful(Hold(t, order, id, Merge(items))) <==>
      forall l | l in Merge(items) :: l.product in t.rows && 0 <= t.rows[l.product].reserved + l.quantity
  {
    var lines := Merge(items);
    var t' := Hold(t, order, id, lines);
    MergeSpec(items);
    forall e: StockLog | e.change !in SUPPLY ensures Count(t'.logs, e) == Expected(t'.reservations, e) {
      HoldMovesOnce(t, order, id, lines, e);
    }
    forall p ensures Balanced(t', p) <==> Stays(t, lines, p) {
      assert Balanced(t, p);
      HoldBalanced(t, order, id, lines, p);
    }
    forall l | l in lines ensures Stays(t, lines, l.product) <==> 0 <= t.rows[l.product].reserved + l.quantity {
      FindIn(lines, l);
      AscendingSum(lines, l.product);
    }
    forall p | !HasProduct(lines, p) ensures Stays(t, lines, p) {
      SumIsLine(lines, p);
      assert Balanced(t, p);
    }
    forall p | HasProduct(lines, p) ensures Line(p, SumQty(lines, p)) in lines { SumIsLine(lines, p); }
    if forall l | l in lines :: 0 <= t.rows[l.product].reserved + l.quantity {
      forall p ensures Balanced(t', p) {
        if HasProduct(lines, p) { assert Line(p, SumQty(lines, p)) in lines; }
      }
    }
  }

  /** Holding the lines as well leaves what is held of `p` at or above zero. */
  ghost predicate Stays(t: Tables, lines: seq<Line>, p: int) {
    0 <= (if p in t.rows then t.rows[p].reserved else 0) + SumQty(lines, p)
  }

  /** Lawful, and every held reservation can be confirmed and released. */
  ghost predicate Healthy(t: Tables) {
    && Lawful(t)
    && forall id | id in t.reservations && t.reservations[id].status == Held ::
         TransitionRefusal(t.rows, t.reservations[id].lines) == None
  }

  ghost predicate HealthyForEver(t: Tables) { forall es | AllAsked(es) :: Healthy(Run(t, es)) }

  lemma {:induction false} RunCons(t: Tables, e: Event, es: seq<Event>)
    requires Asked(e) && AllAsked(es)
    ensures AllAsked([e] + es) && Run(t, [e] + es) == Run(Step(t, e), es)
    decreases |es|
  {
    var all := [e] + es;
    if es == [] {
      assert all[..0] == [] && all[0] == e;
    } else {
      var n := |es| - 1;
      RunCons(t, e, es[..n]);
      assert all[..n + 1] == [e] + es[..n];
    }
  }

  lemma {:induction false} ValidIsHealthy(t: Tables)
    requires Valid(t)
    ensures Healthy(t)
  {
    forall id | id in t.reservations && t.reservations[id].status == Held
      ensures TransitionRefusal(t.rows, t.reservations[id].lines) == None
    {
      GuardNeverFails(t, id, Confirmed);
    }
  }

  /** Some reservation has a positive share of a positive total. */
  lemma {:induction false} PositiveShare(m: map<string, Reservation>, p: int, st: ReservationStatus) returns (k: string)
    requires Total(m, p, st) > 0
    ensures k in m && Share(m[k], p, st) > 0
    decreases |m|
  {
    k := AnyKey(m);
    if Share(m[k], p, st) <= 0 {
      assert (m - {k}).Keys == m.Keys - {k};
      k := PositiveShare(m - {k}, p, st);
    }
  }

  ghost function HeldIds(m: map<string, Reservation>): set<string> { set id | id in m && m[id].status == Held }

  /** Confirming a reservation that its guard lets pass is a step, and one fewer is held. */
  lemma {:induction false} OneFewerHeld(t: Tables, j: string)
    requires Accounted(t) && j in t.reservations && t.reservations[j].status == Held
    requires TransitionRefusal(t.rows, t.reservations[j].lines) == None
    ensures var t' := Settle(t, j, Confirmed);
      && Step(t, TransitionEvent(j, Confirmed)) == t' && Accounted(t') && t'.rows.Keys == t.rows.Keys
      && HeldIds(t'.reservations) == HeldIds(t.reservations) - {j} && j in HeldIds(t.reservations)
  {
    SettleAccounted(t, j, Confirmed);
  }

  /** If a held reservation has a negative share and nothing is below zero, another has a positive one. */
  lemma {:induction false} AnotherIsPositive(t: Tables, id: string, p: int) returns (j: string)
    requires SumsUp(t, p) && p in t.rows && id in t.reservations && t.reservations[id].status == Held
    requires SumQty(t.reservations[id].lines, p) < 0 <= t.rows[p].reserved
    ensures j in t.reservations && j != id && t.reservations[j].status == Held
  {
    TotalSplit(t.reservations, p, Held, id);
    j := PositiveShare(t.reservations - {id}, p, Held);
  }

  /** A held reservation with a negative share would undo the ledger: confirm the others one by one, and
      either a guard refuses one of them or what is held of the product is below zero. */
  lemma {:induction false} NegativeUnravels(t: Tables, id: string, p: int) returns (es: seq<Event>)
    requires Accounted(t) && p in t.rows && id in t.reservations && t.reservations[id].status == Held
    requires SumQty(t.reservations[id].lines, p) < 0
    ensures AllAsked(es) && !Healthy(Run(t, es))
    decreases |HeldIds(t.reservations)|
  {
    es := [];
    if t.rows[p].reserved < 0 {
      assert !Balanced(t, p);
    } else {
      var j := AnotherIsPositive(t, id, p);
      if TransitionRefusal(t.rows, t.reservations[j].lines) == None {
        var e := TransitionEvent(j, Confirmed);
        OneFewerHeld(t, j);
        var rest := NegativeUnravels(Settle(t, j, Confirmed), id, p);
        RunCons(t, e, rest);
        es := [e] + rest;
      }
    }
  }

  /** What the constraint protects against: without it a request that passes Reserve's guards would leave
      tables that stay healthy, whatever follows, if and only if none of its merged sums is negative. */
  lemma {:induction false} UncheckedIsSafeIff(t: Tables, order: int, id: string, items: seq<Line>)
    requires Valid(t) && Passes(t, order, id, items)
    ensures HealthyForEver(Hold(t, order, id, Merge(items))) <==> forall l | l in Merge(items) :: 0 <= l.quantity
  {
    var lines := Merge(items);
    var t' := Hold(t, order, id, lines);
    MergeSpec(items);
    if forall l | l in lines :: 0 <= l.quantity {
      HoldValid(t, order, id, lines);
      forall es | AllAsked(es) ensures Healthy(Run(t', es)) {
        RunValid(t', es);
        ValidIsHealthy(Run(t', es));
      }
    } else {
      var l :| l in lines && l.quantity < 0;
      FindIn(lines, l);
      AscendingSum(lines, l.product);
      ValidIsAccounted(t);
      HoldAccounted(t, order, id, lines);
      var es := NegativeUnravels(t', id, l.product);
    }
  }

  /** Two well-formed lines of any product that passes all of Reserve's guards, and that the tables refuse. */
  lemma {:induction false} WrappedReserveIsRefused(t: Tables, order: int, id: string, p: int)
    requires Valid(t) && p in t.rows && p > 0 && order > 0 && order !in t.byOrder && id != "" && id !in t.reservations
    ensures var q := 0x4000_0000_0000_0000;
      var items := [Line(p, q), Line(p, q)];
      && Passes(t, order, id, items) && Merge(items) == [Line(p, -q - q)]
      && Reserve(t, order, id, items) == (t, Declined(StorageError))
  {
    var q := 0x4000_0000_0000_0000;
    var items := [Line(p, q), Line(p, q)];
    var bad := Line(p, Wrap(q + q));
    assert Merge(items) == [bad] by {
      assert items[..1] == [Line(p, q)] && items[..1][..0] == [];
      assert Merge(items[..1]) == [Line(p, q)];
    }
    assert Balanced(t, p);
    assert bad in Merge(items);
    RefusedByTablesIff(t, order, id, items);
  }
}
