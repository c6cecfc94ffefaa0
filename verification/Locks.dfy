/** The row locks of inventory-service. Reserve and transition lock their rows one at a time, the
    reservation first and then the inventory rows in ascending product order; Add locks one inventory
    row. Any number of such transactions interleave, and each lock is kept until commit or rollback. */
module Locks {
  import opened Items
  import opened Sorting
  import M = Monolith

  /** `KeyEntry` is the idempotency key of the older service. */
  datatype Lock =
    | ReservationRow(id: string)
    | OrderEntry(order: int)
    | StockRow(product: int)
    | KeyEntry(user: int, key: string)

  datatype Request =
    | Reserve(order: int, id: string, items: seq<Line>)
    | Settle(id: string, rows: seq<Line>)  // the item rows in whatever order the database returns them
    | Add(product: int)

  /** What gets as far as the first lock. Stored item rows have distinct products. */
  ghost predicate Proper(r: Request) {
    match r
    case Reserve(order, id, items) => order > 0 && id != "" && WellFormed(items)
    case Settle(id, rows) => id != "" && DistinctRows(rows)
    case Add(product) => product > 0
  }

  ghost predicate DistinctRows(rows: seq<Line>) {
    && (forall i | 0 <= i < |rows| :: rows[i].product > 0)
    && (forall i, j | 0 <= i < j < |rows| :: rows[i].product != rows[j].product)
  }

  function StockRows(lines: seq<Line>): seq<Lock> {
    seq(|lines|, i requires 0 <= i < |lines| => StockRow(lines[i].product))
  }

  /** The locks a transaction takes, in the order in which it takes them. */
  function Plan(r: Request): seq<Lock> {
    match r
    case Reserve(order, id, items) => [ReservationRow(id), OrderEntry(order)] + StockRows(Merge(items))
    case Settle(id, rows) => [ReservationRow(id)] + StockRows(Sort(rows, ByProduct))
    case Add(product) => [StockRow(product)]
  }

  function Rank(l: Lock): int {
    match l case KeyEntry(_, _) => -2 case ReservationRow(_) => -1 case OrderEntry(_) => 0 case StockRow(p) => p
  }

  ghost predicate Rising(plan: seq<Lock>) {
    forall i, j | 0 <= i < j < |plan| :: Rank(plan[i]) < Rank(plan[j])
  }

  // ----- both loops lock in ascending order

  lemma {:induction false} SortedRows(rows: seq<Line>)
    requires DistinctRows(rows)
    ensures var lines := Sort(rows, ByProduct);
      Ascending(lines) && forall i | 0 <= i < |lines| :: lines[i].product > 0
  {
    var lines := Sort(rows, ByProduct);
    SortSpec(rows, ByProduct);
    forall i | 0 <= i < |lines| ensures lines[i].product > 0 {
      assert lines[i] in multiset(rows);
    }
    forall i, j | 0 <= i < j < |lines| ensures lines[i].product < lines[j].product {
      assert ByProduct(lines[i], lines[j]);
      assert lines[i] in multiset(rows) && lines[j] in multiset(rows);
      if lines[i] == lines[j] {
        RepeatsCount(lines, i, j);
        DistinctCount(rows, lines[i]);
      }
    }
  }

  lemma {:induction false} DistinctCount(rows: seq<Line>, l: Line)
    requires DistinctRows(rows)
    ensures multiset(rows)[l] <= 1
  {
    if rows != [] {
      var n := |rows| - 1;
      assert rows == rows[..n] + [rows[n]];
      DistinctCount(rows[..n], l);
      assert rows[n] !in rows[..n];
    }
  }

  /** Every transaction takes its locks in strictly ascending rank. */
  lemma {:induction false} PlansRise(r: Request)
    requires Proper(r)
    ensures Rising(Plan(r)) && Plan(r) != []
  {
    match r {
      case Reserve(_, _, items) => MergeSpec(items); MergedProducts(items);
      case Settle(_, rows) => SortedRows(rows);
      case Add(_) =>
    }
  }

  // ----- interleaved transactions

  datatype Txn = Txn(plan: seq<Lock>, taken: nat)

  type Txns = map<nat, Txn>

  ghost predicate Holds(s: Txns, t: nat, l: Lock) {
    t in s && exists i :: 0 <= i < s[t].taken && i < |s[t].plan| && s[t].plan[i] == l
  }

  ghost predicate Free(s: Txns, t: nat, l: Lock) {
    forall u | u in s && u != t :: !Holds(s, u, l)
  }

  datatype Event = Begin(txn: nat, request: Request) | Take(txn: nat) | Commit(txn: nat) | Rollback(txn: nat)

  predicate Waiting(s: Txns, t: nat) { t in s && s[t].taken < |s[t].plan| }

  ghost predicate Enabled(s: Txns, e: Event) {
    match e
    case Begin(t, r) => t !in s && Proper(r)
    case Take(t) => Waiting(s, t) && Free(s, t, s[t].plan[s[t].taken])
    case Commit(t) => t in s && s[t].taken == |s[t].plan|
    case Rollback(t) => t in s
  }

  ghost function Next(s: Txns, e: Event): Txns
    requires Enabled(s, e)
  {
    match e
    case Begin(t, r) => s[t := Txn(Plan(r), 0)]
    case Take(t) => s[t := s[t].(taken := s[t].taken + 1)]
    case Commit(t) => s - {t}
    case Rollback(t) => s - {t}
  }

  ghost predicate Runs(s: Txns, es: seq<Event>)
    decreases |es|
  {
    es == [] || (Enabled(s, es[0]) && Runs(Next(s, es[0]), es[1..]))
  }

  ghost function Run(s: Txns, es: seq<Event>): Txns
    requires Runs(s, es)
    decreases |es|
  {
    if es == [] then s else Run(Next(s, es[0]), es[1..])
  }

  /** No row is locked twice. */
  ghost predicate Exclusive(s: Txns) {
    forall t, u, l | t in s && u in s && Holds(s, t, l) && Holds(s, u, l) :: t == u
  }

  ghost predicate Inv(s: Txns) {
    (forall t | t in s :: Rising(s[t].plan) && s[t].taken <= |s[t].plan|) && Exclusive(s)
  }

  lemma {:induction false} StepExclusive(s: Txns, e: Event)
    requires Exclusive(s) && Enabled(s, e)
    ensures Exclusive(Next(s, e))
  {
    var s' := Next(s, e);
    forall t, u, l | t in s' && u in s' && Holds(s', t, l) && Holds(s', u, l) ensures t == u {
      var next := if e.Take? then s[e.txn].plan[s[e.txn].taken] else l;
      assert Holds(s, t, l) || (e.Take? && t == e.txn && l == next);
      assert Holds(s, u, l) || (e.Take? && u == e.txn && l == next);
    }
  }

  lemma {:induction false} StepInv(s: Txns, e: Event)
    requires Inv(s) && Enabled(s, e)
    ensures Inv(Next(s, e))
  {
    StepExclusive(s, e);
    if e.Begin? { PlansRise(e.request); }
  }

  lemma {:induction false} RunInv(s: Txns, es: seq<Event>)
    requires Inv(s) && Runs(s, es)
    ensures Inv(Run(s, es))
    decreases |es|
  {
    if es != [] {
      StepInv(s, es[0]);
      RunInv(Next(s, es[0]), es[1..]);
    }
  }

  function NextRank(s: Txns, t: nat): int
    requires Waiting(s, t)
  {
    Rank(s[t].plan[s[t].taken])
  }

  /** Of a non-empty set of waiting transactions, one that waits for a lock of greatest rank. */
  lemma {:induction false} Highest(s: Txns, ts: set<nat>) returns (top: nat)
    requires ts != {} && forall t | t in ts :: Waiting(s, t)
    ensures top in ts && forall t | t in ts :: NextRank(s, t) <= NextRank(s, top)
    decreases |ts|
  {
    var first :| first in ts;
    top := first;
    var rest := ts - {first};
    if rest != {} {
      var other := Highest(s, rest);
      if NextRank(s, first) < NextRank(s, other) { top := other; }
      forall t | t in ts ensures NextRank(s, t) <= NextRank(s, top) {
        if t != first { assert t in rest; }
      }
    } else {
      assert ts == {first};
    }
  }

  ghost predicate CanGoOn(s: Txns, t: nat) {
    Enabled(s, Take(t)) || Enabled(s, Commit(t))
  }

  lemma {:induction false} SomeoneCanGoOn(s: Txns) returns (t: nat)
    requires Inv(s) && s != map[]
    ensures CanGoOn(s, t)
  {
    var ts := set t | t in s && Waiting(s, t);
    if ts == {} {
      t :| t in s;
      assert t !in ts;
    } else {
      t := Highest(s, ts);
      var l := s[t].plan[s[t].taken];
      if !Free(s, t, l) {
        var u :| u in s && u != t && Holds(s, u, l);
        assert u !in ts;
        t := u;
      }
    }
  }

  /** No deadlock: after any run of any transactions, some unfinished one can take its next lock or
      commit. */
  lemma {:induction false} NoDeadlock(es: seq<Event>)
    requires Runs(map[], es) && Run(map[], es) != map[]
    ensures exists t :: CanGoOn(Run(map[], es), t)
  {
    RunInv(map[], es);
    var t := SomeoneCanGoOn(Run(map[], es));
  }

  // ----- and so all can finish

  ghost function AnyTxn(s: Txns): nat
    requires s != map[]
  {
    var t :| t in s; t
  }

  /** The locks and commits still to come. */
  ghost function Work(s: Txns): nat
    requires forall t | t in s :: s[t].taken <= |s[t].plan|
    decreases |s|
  {
    if s == map[] then 0
    else
      var t := AnyTxn(s);
      assert |s - {t}| < |s| by { Smaller(s, t); }
      |s[t].plan| - s[t].taken + 1 + Work(s - {t})
  }

  lemma {:induction false} Smaller(s: Txns, t: nat)
    requires t in s
    ensures |s - {t}| < |s|
  {
    assert (s - {t}).Keys == s.Keys - {t};
    assert |s.Keys| == |s| && |(s - {t}).Keys| == |s - {t}|;
  }

  lemma {:induction false} WorkSplit(s: Txns, t: nat)
    requires (forall u | u in s :: s[u].taken <= |s[u].plan|) && t in s
    ensures Work(s) == |s[t].plan| - s[t].taken + 1 + Work(s - {t})
    decreases |s|
  {
    var u := AnyTxn(s);
    if u != t {
      Smaller(s, u);
      Smaller(s, t);
      WorkSplit(s - {u}, t);
      WorkSplit(s - {t}, u);
      assert s - {u} - {t} == s - {t} - {u};
    }
  }

  lemma {:induction false} StepWorks(s: Txns, t: nat, e: Event)
    requires Inv(s) && Enabled(s, e) && (e == Take(t) || e == Commit(t))
    ensures Inv(Next(s, e)) && Work(Next(s, e)) < Work(s)
  {
    StepInv(s, e);
    var s' := Next(s, e);
    WorkSplit(s, t);
    if e.Take? {
      WorkSplit(s', t);
      assert s' - {t} == s - {t};
    }
  }

  /** From every reachable state the transactions under way can all be brought to commit, none being
      rolled back. */
  lemma {:induction false} AllCanCommit(s: Txns) returns (es: seq<Event>)
    requires Inv(s)
    ensures Runs(s, es) && Run(s, es) == map[] && forall e | e in es :: e.Take? || e.Commit?
    decreases Work(s)
  {
    es := [];
    if s != map[] {
      var t := SomeoneCanGoOn(s);
      var e := if Enabled(s, Take(t)) then Take(t) else Commit(t);
      StepWorks(s, t, e);
      var rest := AllCanCommit(Next(s, e));
      es := [e] + rest;
      assert es[1..] == rest;
    }
  }

  // ----- the older order service, which locks in request order

  datatype OldRequest = OldRequest(user: int, key: string, items: seq<Line>)

  /** The key and then the rows of the items as they come. */
  function RowPlan(r: OldRequest): seq<Lock> { [KeyEntry(r.user, r.key)] + StockRows(r.items) }

  predicate Offered(stock: map<int, int>, catalog: M.Catalog, l: Line) {
    l.product in catalog && catalog[l.product].onSale && l.product in stock
  }

  /** An item that does not end the request. */
  predicate Served(stock: map<int, int>, catalog: M.Catalog, l: Line) {
    Offered(stock, catalog, l) && l.quantity <= stock[l.product] && M.Storable(catalog[l.product], l.quantity)
  }

  /** The items up to the first that ends the request: before its row is locked if it is not offered, and
      after that if there is too little of it or it cannot be stored. */
  function UpToRefusal(stock: map<int, int>, catalog: M.Catalog, items: seq<Line>): (ls: seq<Line>)
    ensures ls <= items
  {
    if items == [] || !Offered(stock, catalog, items[0]) then []
    else if !Served(stock, catalog, items[0]) then items[..1]
    else items[..1] + UpToRefusal(stock, catalog, items[1..])
  }

  /** The items whose rows a request locks; products that repeat are refused before any of them. */
  function Locked(stock: map<int, int>, catalog: M.Catalog, items: seq<Line>): seq<Line> {
    if M.NoDuplicates(items) then UpToRefusal(stock, catalog, items) else []
  }

  /** What CreateOrder of the older service locks under a new key. Until one of two such transactions ends,
      both see the stock they started from. */
  function OldPlan(stock: map<int, int>, catalog: M.Catalog, r: OldRequest): seq<Lock> {
    RowPlan(r.(items := Locked(stock, catalog, r.items)))
  }

  /** A request that can be served locks the rows of all its items. */
  lemma {:induction false} LocksAll(stock: map<int, int>, catalog: M.Catalog, items: seq<Line>)
    requires forall i | 0 <= i < |items| :: Served(stock, catalog, items[i])
    ensures UpToRefusal(stock, catalog, items) == items
    decreases |items|
  {
    if items != [] {
      LocksAll(stock, catalog, items[1..]);
      assert items == items[..1] + items[1..];
    }
  }

  /** Two transactions that have taken `i` and `j` of their locks. */
  function Pair(a: seq<Lock>, i: nat, b: seq<Lock>, j: nat): Txns { map[0 := Txn(a, i), 1 := Txn(b, j)] }

  ghost predicate Stuck(s: Txns) { s != map[] && forall t :: !CanGoOn(s, t) }

  ghost predicate NoBegin(es: seq<Event>) { forall i | 0 <= i < |es| :: !es[i].Begin? }

  /** Started together, with nobody else there, the two can both come to a stop. */
  ghost predicate CanDeadlock(a: seq<Lock>, b: seq<Lock>) {
    exists es :: NoBegin(es) && Runs(Pair(a, 0, b, 0), es) && Stuck(Run(Pair(a, 0, b, 0), es))
  }

  /** Each has taken what the other wants next, and neither had to wait before. */
  ghost predicate Crossed(a: seq<Lock>, i: int, b: seq<Lock>, j: int) {
    && 0 <= i < |a| && 0 <= j < |b| && (forall l :: l in a[..i] ==> l !in b[..j])
    && a[i] in b[..j] && b[j] in a[..i]
  }

  lemma {:induction false} PairHolds(a: seq<Lock>, i: nat, b: seq<Lock>, j: nat, l: Lock)
    requires i <= |a| && j <= |b|
    ensures (Holds(Pair(a, i, b, j), 0, l) <==> l in a[..i]) && (Holds(Pair(a, i, b, j), 1, l) <==> l in b[..j])
  {
    var s := Pair(a, i, b, j);
    assert s[0] == Txn(a, i) && s[1] == Txn(b, j);
    if l in a[..i] { var k :| 0 <= k < i && a[..i][k] == l; assert s[0].plan[k] == l; }
    if l in b[..j] { var k :| 0 <= k < j && b[..j][k] == l; assert s[1].plan[k] == l; }
  }

  lemma {:induction false} PairStuck(a: seq<Lock>, i: nat, b: seq<Lock>, j: nat)
    requires i <= |a| && j <= |b|
    ensures Stuck(Pair(a, i, b, j)) <==> i < |a| && j < |b| && a[i] in b[..j] && b[j] in a[..i]
  {
    var s := Pair(a, i, b, j);
    assert 0 in s && 1 in s;
    if i < |a| {
      PairHolds(a, i, b, j, a[i]);
      assert Enabled(s, Take(0)) <==> !Holds(s, 1, a[i]);
    }
    if j < |b| {
      PairHolds(a, i, b, j, b[j]);
      assert Enabled(s, Take(1)) <==> !Holds(s, 0, b[j]);
    }
    assert CanGoOn(s, 0) <==> i == |a| || a[i] !in b[..j];
    assert CanGoOn(s, 1) <==> j == |b| || b[j] !in a[..i];
  }

  /** What the two can come to: any of their states, or one of them gone. */
  ghost predicate PairState(a: seq<Lock>, b: seq<Lock>, s: Txns) {
    && s.Keys <= {0, 1}
    && (0 in s ==> s[0].plan == a && s[0].taken <= |a|) && (1 in s ==> s[1].plan == b && s[1].taken <= |b|)
    && Exclusive(s)
  }

  lemma {:induction false} PairStep(a: seq<Lock>, b: seq<Lock>, s: Txns, e: Event)
    requires PairState(a, b, s) && Enabled(s, e) && !e.Begin?
    ensures PairState(a, b, Next(s, e))
  {
    StepExclusive(s, e);
  }

  lemma {:induction false} PairRuns(a: seq<Lock>, b: seq<Lock>, s: Txns, es: seq<Event>)
    requires PairState(a, b, s) && Runs(s, es) && NoBegin(es)
    ensures PairState(a, b, Run(s, es))
    decreases |es|
  {
    if es != [] {
      assert !es[0].Begin?;
      PairStep(a, b, s, es[0]);
      PairRuns(a, b, Next(s, es[0]), es[1..]);
    }
  }

  lemma {:induction false} StuckIsCrossed(a: seq<Lock>, b: seq<Lock>, s: Txns)
    requires PairState(a, b, s) && Stuck(s)
    ensures exists i, j :: Crossed(a, i, b, j)
  {
    if 0 !in s || 1 !in s {
      var t :| t in s;
      assert s.Keys == {t};
      assert CanGoOn(s, t);
    } else {
      var i, j := s[0].taken, s[1].taken;
      assert s == Pair(a, i, b, j);
      PairStuck(a, i, b, j);
      forall l | l in a[..i] ensures l !in b[..j] { PairHolds(a, i, b, j, l); }
      assert Crossed(a, i, b, j);
    }
  }

  /** Take the `n` next locks, all of which are free. */
  lemma {:induction false} TakeMany(s: Txns, t: nat, n: nat) returns (es: seq<Event>)
    requires t in s && s[t].taken + n <= |s[t].plan|
    requires forall k | s[t].taken <= k < s[t].taken + n :: Free(s, t, s[t].plan[k])
    ensures NoBegin(es) && Runs(s, es) && Run(s, es) == s[t := s[t].(taken := s[t].taken + n)]
    decreases n
  {
    es := [];
    if n == 0 {
      assert s == s[t := s[t].(taken := s[t].taken + n)];
    } else {
      var e := Take(t);
      var s' := Next(s, e);
      forall k | s'[t].taken <= k < s'[t].taken + (n - 1) ensures Free(s', t, s'[t].plan[k]) {
        assert Free(s, t, s[t].plan[k]);
        forall u | u in s' && u != t ensures !Holds(s', u, s'[t].plan[k]) { assert !Holds(s, u, s[t].plan[k]); }
      }
      var rest := TakeMany(s', t, n - 1);
      es := [e] + rest;
      assert es[1..] == rest;
      assert s'[t := s'[t].(taken := s'[t].taken + (n - 1))] == s[t := s[t].(taken := s[t].taken + n)];
    }
  }

  lemma {:induction false} RunConcat(s: Txns, a: seq<Event>, b: seq<Event>)
    requires Runs(s, a) && Runs(Run(s, a), b)
    ensures Runs(s, a + b) && Run(s, a + b) == Run(Run(s, a), b)
    decreases |a|
  {
    if a == [] {
      assert a + b == b;
    } else {
      assert (a + b)[1..] == a[1..] + b;
      RunConcat(Next(s, a[0]), a[1..], b);
    }
  }

  lemma {:induction false} CrossedDeadlocks(a: seq<Lock>, i: nat, b: seq<Lock>, j: nat)
    requires Crossed(a, i, b, j)
    ensures CanDeadlock(a, b)
  {
    var s := Pair(a, 0, b, 0);
    forall k | 0 <= k < i ensures Free(s, 0, a[k]) { PairHolds(a, 0, b, 0, a[k]); }
    var es := TakeMany(s, 0, i);
    var s1 := Pair(a, i, b, 0);
    assert Run(s, es) == s1;
    forall k | 0 <= k < j ensures Free(s1, 1, b[k]) {
      PairHolds(a, i, b, 0, b[k]);
      assert b[k] in b[..j];
    }
    var fs := TakeMany(s1, 1, j);
    assert Run(s1, fs) == Pair(a, i, b, j);
    RunConcat(s, es, fs);
    PairStuck(a, i, b, j);
    assert NoBegin(es + fs);
  }

  /** Two transactions can deadlock if and only if their plans cross. */
  lemma {:induction false} DeadlockIffCrossed(a: seq<Lock>, b: seq<Lock>)
    ensures CanDeadlock(a, b) <==> exists i, j :: Crossed(a, i, b, j)
  {
    if CanDeadlock(a, b) {
      var s := Pair(a, 0, b, 0);
      var es :| NoBegin(es) && Runs(s, es) && Stuck(Run(s, es));
      assert Exclusive(s) by { assert forall t, l :: !Holds(s, t, l); }
      PairRuns(a, b, s, es);
      StuckIsCrossed(a, b, Run(s, es));
    }
    if i, j :| Crossed(a, i, b, j) { CrossedDeadlocks(a, i, b, j); }
  }

  function Products(items: seq<Line>): seq<int> { seq(|items|, i requires 0 <= i < |items| => items[i].product) }

  /** The same in terms of the requests: item `i` of one is among the first `j` of the other, item `j` of
      the other among the first `i` of the one, and those first items have no product in common. */
  ghost predicate ItemsCross(x: seq<int>, i: int, y: seq<int>, j: int) {
    && 0 <= i < |x| && 0 <= j < |y| && (forall p :: p in x[..i] ==> p !in y[..j])
    && x[i] in y[..j] && y[j] in x[..i]
  }

  lemma {:induction false} RowsOf(items: seq<Line>, n: nat, l: Lock)
    requires n <= |items|
    ensures l in StockRows(items)[..n] <==> l.StockRow? && l.product in Products(items)[..n]
  {
    var rows, ps := StockRows(items)[..n], Products(items)[..n];
    if l in rows {
      var k :| 0 <= k < n && rows[k] == l;
      assert ps[k] == l.product;
    }
    if l.StockRow? && l.product in ps {
      var k :| 0 <= k < n && ps[k] == l.product;
      assert rows[k] == l;
    }
  }

  lemma {:induction false} RowPlanHolds(r: OldRequest, n: nat, l: Lock)
    requires 0 < n <= |r.items| + 1
    ensures l in RowPlan(r)[..n] <==>
      l == KeyEntry(r.user, r.key) || (l.StockRow? && l.product in Products(r.items)[..n - 1])
  {
    assert RowPlan(r)[..n] == [KeyEntry(r.user, r.key)] + StockRows(r.items)[..n - 1];
    RowsOf(r.items, n - 1, l);
  }

  lemma {:induction false} PlansCross(x: OldRequest, y: OldRequest, i: nat, j: nat)
    requires (x.user, x.key) != (y.user, y.key) && i < |x.items| && j < |y.items|
    ensures Crossed(RowPlan(x), i + 1, RowPlan(y), j + 1) <==> ItemsCross(Products(x.items), i, Products(y.items), j)
  {
    var a, b, ps, qs := RowPlan(x), RowPlan(y), Products(x.items), Products(y.items);
    assert a[i + 1] == StockRow(ps[i]) && b[j + 1] == StockRow(qs[j]);
    RowPlanHolds(x, i + 1, b[j + 1]);
    RowPlanHolds(y, j + 1, a[i + 1]);
    var mine, yours := a[..i + 1], b[..j + 1];
    forall l ensures l in mine && l in yours <==> l.StockRow? && l.product in ps[..i] && l.product in qs[..j] {
      RowPlanHolds(x, i + 1, l);
      RowPlanHolds(y, j + 1, l);
    }
    if ItemsCross(ps, i, qs, j) {
      forall l | l in mine ensures l !in yours {}
    }
    if Crossed(a, i + 1, b, j + 1) {
      forall p | p in ps[..i] ensures p !in qs[..j] { assert StockRow(p) in mine ==> StockRow(p) !in yours; }
    }
  }

  lemma {:induction false} CrossedItems(x: OldRequest, y: OldRequest, i: int, j: int)
    requires (x.user, x.key) != (y.user, y.key) && Crossed(RowPlan(x), i, RowPlan(y), j)
    ensures ItemsCross(Products(x.items), i - 1, Products(y.items), j - 1)
  {
    NotAtTheKey(x, y, i, j);
    assert 0 < j by { assert RowPlan(x)[i] in RowPlan(y)[..j]; }
    PlansCross(x, y, i - 1, j - 1);
  }

  lemma {:induction false} NotAtTheKey(x: OldRequest, y: OldRequest, i: int, j: int)
    requires (x.user, x.key) != (y.user, y.key) && Crossed(RowPlan(x), i, RowPlan(y), j)
    ensures i > 0
  {
    assert RowPlan(y)[j] in RowPlan(x)[..i];
  }

  lemma {:induction false} RowPlansDeadlockIff(x: OldRequest, y: OldRequest)
    requires (x.user, x.key) != (y.user, y.key)
    ensures CanDeadlock(RowPlan(x), RowPlan(y)) <==>
      exists i, j :: ItemsCross(Products(x.items), i, Products(y.items), j)
  {
    var a, b := RowPlan(x), RowPlan(y);
    DeadlockIffCrossed(a, b);
    if i, j :| Crossed(a, i, b, j) { CrossedItems(x, y, i, j); }
    if i, j :| ItemsCross(Products(x.items), i, Products(y.items), j) {
      PlansCross(x, y, i, j);
      assert Crossed(a, i + 1, b, j + 1);
    }
  }

  /** Two orders placed under different new keys with the older service can deadlock exactly if the items
      whose rows they lock cross; these are all items if the request can be served. */
  lemma {:induction false} OlderServiceDeadlocksIff(stock: map<int, int>, catalog: M.Catalog, x: OldRequest,
                                                    y: OldRequest)
    requires (x.user, x.key) != (y.user, y.key)
    ensures var ps, qs := Products(Locked(stock, catalog, x.items)), Products(Locked(stock, catalog, y.items));
      CanDeadlock(OldPlan(stock, catalog, x), OldPlan(stock, catalog, y)) <==> exists i, j :: ItemsCross(ps, i, qs, j)
    ensures M.NoDuplicates(x.items) && (forall i | 0 <= i < |x.items| :: Served(stock, catalog, x.items[i])) ==>
      Locked(stock, catalog, x.items) == x.items
  {
    RowPlansDeadlockIff(x.(items := Locked(stock, catalog, x.items)), y.(items := Locked(stock, catalog, y.items)));
    if forall i | 0 <= i < |x.items| :: Served(stock, catalog, x.items[i]) { LocksAll(stock, catalog, x.items); }
  }

  /** Two users who order the same two products in opposite orders can stop each other. */
  lemma {:induction false} OppositeOrdersDeadlock(
    stock: map<int, int>, catalog: M.Catalog, x: OldRequest, y: OldRequest, a: Line, b: Line, c: Line, d: Line)
    requires (x.user, x.key) != (y.user, y.key) && x.items == [a, b] && y.items == [c, d]
    requires a.product == d.product != b.product == c.product
    requires forall l | l in [a, b, c, d] :: Served(stock, catalog, l)
    ensures CanDeadlock(OldPlan(stock, catalog, x), OldPlan(stock, catalog, y))
  {
    OlderServiceDeadlocksIff(stock, catalog, x, y);
    OlderServiceDeadlocksIff(stock, catalog, y, x);
    forall i | 0 <= i < 2 ensures Served(stock, catalog, [a, b][i]) && Served(stock, catalog, [c, d][i]) {
      assert [a, b][i] in [a, b, c, d] && [c, d][i] in [a, b, c, d];
    }
    var ps, qs := Products([a, b]), Products([c, d]);
    assert ps[..1] == [a.product] && qs[..1] == [c.product];
    assert ItemsCross(ps, 1, qs, 1);
  }
}
