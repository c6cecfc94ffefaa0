/** The lines of a request: how order-service and inventory-service merge repeated products and how
    an order is priced. Quantities are int64 in the source and the merge is unguarded, so additions
    and multiplications wrap here exactly as they do there. */
module Items {
  import opened Sorting
  import opened Wrappers

  datatype Line = Line(product: int, quantity: int)

  const MAX64 := 0x7FFF_FFFF_FFFF_FFFF
  const MAX_LINES := 100

  /** Two's complement reading of `x` in 64 bits. */
  function Wrap(x: int): int {
    (x + 0x8000_0000_0000_0000) % 0x1_0000_0000_0000_0000 - 0x8000_0000_0000_0000
  }

  /** Go's division for a non-negative dividend: truncated toward zero. */
  function TruncDiv(a: nat, b: int): int
    requires b != 0
  {
    if b > 0 then a / b else -(a / -b)
  }

  ghost predicate Ascending(lines: seq<Line>) {
    forall i, j | 0 <= i < j < |lines| :: lines[i].product < lines[j].product
  }

  predicate HasProduct(lines: seq<Line>, p: int) {
    lines != [] && (lines[|lines| - 1].product == p || HasProduct(lines[..|lines| - 1], p))
  }

  /** What all lines together ask of product `p`. */
  function SumQty(lines: seq<Line>, p: int): int {
    if lines == [] then 0
    else
      var n := |lines| - 1;
      SumQty(lines[..n], p) + if lines[n].product == p then lines[n].quantity else 0
  }

  /** The per-item checks and the size limit shared by both services. */
  predicate WellFormed(items: seq<Line>) {
    && 0 < |items| <= MAX_LINES
    && forall i | 0 <= i < |items| :: items[i].product > 0 && items[i].quantity > 0
  }

  /** The quantities are int64 values. */
  ghost predicate Typed(items: seq<Line>) {
    forall i | 0 <= i < |items| :: items[i].quantity <= MAX64
  }

  /** No product's merged quantity overflows. */
  ghost predicate Fits(items: seq<Line>) {
    forall p :: SumQty(items, p) <= MAX64
  }

  /** The reference merge: put the items one by one into an ordered list. */
  function Put(lines: seq<Line>, item: Line): seq<Line> {
    if lines == [] || item.product < lines[0].product then [Line(item.product, Wrap(item.quantity))] + lines
    else if item.product == lines[0].product then
      [Line(item.product, Wrap(lines[0].quantity + item.quantity))] + lines[1..]
    else [lines[0]] + Put(lines[1..], item)
  }

  function Merge(items: seq<Line>): seq<Line> {
    if items == [] then [] else Put(Merge(items[..|items| - 1]), items[|items| - 1])
  }

  /** The quantity listed for `p`, if any. */
  function Find(lines: seq<Line>, p: int): Option<int> {
    if lines == [] then None
    else if lines[0].product == p then Some(lines[0].quantity)
    else Find(lines[1..], p)
  }

  /** What the merged list holds for `p`. */
  function Merged(items: seq<Line>, p: int): Option<int> {
    if HasProduct(items, p) then Some(Wrap(SumQty(items, p))) else None
  }

  /** `lines` lists each product of `items` once, in ascending order, with the wrapped sum. */
  ghost predicate Merges(items: seq<Line>, lines: seq<Line>) {
    Ascending(lines) && forall p :: Find(lines, p) == Merged(items, p)
  }

  lemma {:induction false} WrapAdd(a: int, b: int)
    ensures Wrap(Wrap(a) + b) == Wrap(a + b)
  {
  }

  lemma {:induction false} WrapId(x: int)
    ensures Wrap(x) == x <==> -0x8000_0000_0000_0000 <= x <= MAX64
  {
  }

  lemma {:induction false} PutAscending(lines: seq<Line>, item: Line)
    requires Ascending(lines)
    ensures var r := Put(lines, item);
      && Ascending(r) && r != []
      && r[0].product == if lines != [] && lines[0].product < item.product then lines[0].product else item.product
  {
    if lines != [] && lines[0].product < item.product {
      PutAscending(lines[1..], item);
    }
  }

  lemma {:induction false} PutFind(lines: seq<Line>, item: Line, p: int)
    requires Ascending(lines)
    ensures Find(Put(lines, item), p) ==
      if p != item.product then Find(lines, p)
      else Some(Wrap((match Find(lines, p) case Some(q) => q case None => 0) + item.quantity))
  {
    if lines == [] || item.product < lines[0].product {
      assert Put(lines, item)[1..] == lines;
      FindBelow(lines, item.product);
    } else if item.product == lines[0].product {
      assert Put(lines, item)[1..] == lines[1..];
    } else {
      assert Put(lines, item)[1..] == Put(lines[1..], item);
      PutFind(lines[1..], item, p);
    }
  }

  lemma {:induction false} FindBelow(lines: seq<Line>, p: int)
    requires Ascending(lines) && (lines != [] ==> p < lines[0].product)
    ensures Find(lines, p) == None
  {
    if lines != [] { FindBelow(lines[1..], p); }
  }

  lemma {:induction false} NoneSumsToZero(items: seq<Line>, p: int)
    requires !HasProduct(items, p)
    ensures SumQty(items, p) == 0
  {
    if items != [] { NoneSumsToZero(items[..|items| - 1], p); }
  }

  /** The reference merge lists each product once, in order, with its wrapped sum. */
  lemma {:induction false} MergeSpec(items: seq<Line>)
    ensures Merges(items, Merge(items))
  {
    if items != [] {
      var n := |items| - 1;
      MergeSpec(items[..n]);
      PutAscending(Merge(items[..n]), items[n]);
      forall p ensures Find(Merge(items), p) == Merged(items, p) {
        MergeSpecAt(items, p);
      }
    }
  }

  lemma {:induction false} MergeSpecAt(items: seq<Line>, p: int)
    requires items != [] && Merges(items[..|items| - 1], Merge(items[..|items| - 1]))
    ensures Find(Merge(items), p) == Merged(items, p)
  {
    var n := |items| - 1;
    PutFind(Merge(items[..n]), items[n], p);
    assert Find(Merge(items[..n]), p) == Merged(items[..n], p);
    if HasProduct(items[..n], p) {
      WrapAdd(SumQty(items[..n], p), items[n].quantity);
    } else {
      NoneSumsToZero(items[..n], p);
    }
  }

  /** An ascending list is determined by the quantities it lists. */
  lemma {:induction false} AscendingUnique(a: seq<Line>, b: seq<Line>)
    requires Ascending(a) && Ascending(b)
    requires forall p :: Find(a, p) == Find(b, p)
    ensures a == b
  {
    assert a != [] ==> Find(a, a[0].product) == Find(b, a[0].product);
    assert b != [] ==> Find(a, b[0].product) == Find(b, b[0].product);
    if a != [] {
      var x, y := a[0].product, b[0].product;
      if x < y { FindBelow(b, x); }
      if y < x { FindBelow(a, y); }
      forall p ensures Find(a[1..], p) == Find(b[1..], p) {
        assert Find(a, p) == Find(b, p);
        if p == x { FindBelow(a[1..], p); FindBelow(b[1..], p); }
      }
      AscendingUnique(a[1..], b[1..]);
    }
  }

  /** Merging is a function of the request: whatever lists every product once in order with the
      wrapped sums is the reference merge. */
  lemma {:induction false} MergesUnique(items: seq<Line>, lines: seq<Line>)
    requires Merges(items, lines)
    ensures lines == Merge(items)
  {
    MergeSpec(items);
    AscendingUnique(lines, Merge(items));
  }

  lemma {:induction false} FindIn(lines: seq<Line>, l: Line)
    requires Ascending(lines)
    ensures l in lines <==> Find(lines, l.product) == Some(l.quantity)
  {
    if lines != [] {
      FindIn(lines[1..], l);
      if l.product == lines[0].product { FindBelow(lines[1..], l.product); }
      assert lines == [lines[0]] + lines[1..];
    }
  }

  lemma {:induction false} FindSnoc(lines: seq<Line>, p: int)
    requires lines != []
    ensures var n := |lines| - 1;
      Find(lines, p) ==
      if Find(lines[..n], p).Some? then Find(lines[..n], p)
      else if lines[n].product == p then Some(lines[n].quantity) else None
  {
    var n := |lines| - 1;
    if n > 0 {
      assert lines[..n][1..] == lines[1..][..n - 1];
      FindSnoc(lines[1..], p);
    }
  }

  /** In an ascending list the sum for a product is the one quantity listed for it. */
  lemma {:induction false} AscendingSum(lines: seq<Line>, p: int)
    requires Ascending(lines)
    ensures Find(lines, p) == if HasProduct(lines, p) then Some(SumQty(lines, p)) else None
  {
    if lines != [] {
      var n := |lines| - 1;
      AscendingSum(lines[..n], p);
      FindSnoc(lines, p);
      if lines[n].product == p {
        LastIsNew(lines);
        NoneSumsToZero(lines[..n], p);
      }
    }
  }

  lemma {:induction false} LastIsNew(lines: seq<Line>)
    requires Ascending(lines) && lines != []
    ensures !HasProduct(lines[..|lines| - 1], lines[|lines| - 1].product)
    decreases |lines|
  {
    var n := |lines| - 1;
    if n > 0 {
      var shorter := lines[..n - 1] + [lines[n]];
      assert shorter[..n - 1] == lines[..n - 1] && lines[..n][..n - 1] == lines[..n - 1];
      LastIsNew(shorter);
    }
  }

  /** Merging already merged lines changes nothing: inventory-service normalises the lines
      order-service resolved to themselves. */
  lemma {:induction false} MergeIdempotent(lines: seq<Line>)
    requires Ascending(lines) && WellFormed(lines) && Typed(lines)
    ensures Merge(lines) == lines
  {
    forall p ensures Find(lines, p) == Merged(lines, p) {
      AscendingSum(lines, p);
      if HasProduct(lines, p) {
        FindIn(lines, Line(p, SumQty(lines, p)));
        WrapId(SumQty(lines, p));
      }
    }
    MergesUnique(lines, lines);
  }

  lemma {:induction false} SumNonNegative(items: seq<Line>, p: int)
    requires forall i | 0 <= i < |items| :: items[i].quantity >= 0
    ensures SumQty(items, p) >= 0
  {
    if items != [] { SumNonNegative(items[..|items| - 1], p); }
  }

  lemma {:induction false} SumPositive(items: seq<Line>, p: int)
    requires forall i | 0 <= i < |items| :: items[i].quantity > 0
    ensures SumQty(items, p) >= 0
    ensures HasProduct(items, p) ==> SumQty(items, p) > 0
  {
    if items != [] {
      SumPositive(items[..|items| - 1], p);
    }
  }

  /** The merged quantities are the true per-product sums exactly when no sum overflows. */
  lemma {:induction false} MergedExactIffFits(items: seq<Line>)
    requires WellFormed(items)
    ensures (forall l | l in Merge(items) :: l.quantity == SumQty(items, l.product)) <==> Fits(items)
    ensures Fits(items) ==> forall l | l in Merge(items) :: 0 < l.quantity <= MAX64
  {
    MergeSpec(items);
    var m := Merge(items);
    forall p
      ensures SumQty(items, p) > MAX64 ==> exists l :: l in m && l.quantity != SumQty(items, l.product)
      ensures SumQty(items, p) <= MAX64 ==> Wrap(SumQty(items, p)) == SumQty(items, p)
    {
      SumPositive(items, p);
      WrapId(SumQty(items, p));
      if SumQty(items, p) > MAX64 {
        if !HasProduct(items, p) { NoneSumsToZero(items, p); }
        FindIn(m, Line(p, Wrap(SumQty(items, p))));
        assert Find(m, p) == Merged(items, p);
      }
    }
    forall l | l in m
      ensures l.quantity == Wrap(SumQty(items, l.product)) && 0 < SumQty(items, l.product)
    {
      FindIn(m, l);
      assert Find(m, l.product) == Merged(items, l.product);
      SumPositive(items, l.product);
    }
  }

  lemma {:induction false} MergedProducts(items: seq<Line>)
    requires WellFormed(items)
    ensures forall i | 0 <= i < |Merge(items)| :: Merge(items)[i].product > 0
  {
    var lines := Merge(items);
    MergeSpec(items);
    forall i | 0 <= i < |lines| ensures lines[i].product > 0 {
      FindIn(lines, lines[i]);
      assert Find(lines, lines[i].product) == Merged(items, lines[i].product);
      ListedPositive(items, lines[i].product);
    }
  }

  lemma {:induction false} ListedPositive(items: seq<Line>, p: int)
    requires HasProduct(items, p) && forall i | 0 <= i < |items| :: items[i].product > 0
    ensures p > 0
  {
    if items[|items| - 1].product != p { ListedPositive(items[..|items| - 1], p); }
  }

  lemma {:induction false} MergeShortens(items: seq<Line>)
    ensures |Merge(items)| <= |items| && (items != [] ==> Merge(items) != [])
  {
    if items != [] {
      MergeShortens(items[..|items| - 1]);
      PutLength(Merge(items[..|items| - 1]), items[|items| - 1]);
    }
  }

  lemma {:induction false} PutLength(lines: seq<Line>, item: Line)
    ensures 0 < |Put(lines, item)| <= |lines| + 1
  {
    if lines != [] && lines[0].product < item.product { PutLength(lines[1..], item); }
  }

  /** As long as no sum overflows, inventory-service takes the lines order-service resolved exactly as
      they are, so the stock held is the order's lines. */
  lemma {:induction false} ResolvedLinesSurvive(items: seq<Line>)
    requires WellFormed(items) && Fits(items)
    ensures WellFormed(Merge(items)) && Ascending(Merge(items)) && Typed(Merge(items))
    ensures Normalize(Merge(items)) == Accepted(Merge(items))
  {
    var lines := Merge(items);
    MergeSpec(items);
    MergedProducts(items);
    MergeShortens(items);
    MergedExactIffFits(items);
    forall i | 0 <= i < |lines| ensures 0 < lines[i].quantity <= MAX64 { assert lines[i] in lines; }
    MergeIdempotent(lines);
  }

  predicate ByProduct(a: Line, b: Line) { a.product <= b.product }

  function Look(quantities: map<int, int>, p: int): Option<int> {
    if p in quantities then Some(quantities[p]) else None
  }

  /** The map loop of the merge: sums per product, refusing non-positive products and quantities. */
  method CollectQuantities(items: seq<Line>) returns (ok: bool, quantities: map<int, int>)
    ensures ok <==> forall i | 0 <= i < |items| :: items[i].product > 0 && items[i].quantity > 0
    ensures ok ==> forall p :: Look(quantities, p) == Merged(items, p)
  {
    ok, quantities := true, map[];
    for n := 0 to |items|
      invariant forall i | 0 <= i < n :: items[i].product > 0 && items[i].quantity > 0
      invariant forall p :: Look(quantities, p) == Merged(items[..n], p)
    {
      var item := items[n];
      if item.product <= 0 || item.quantity <= 0 {
        return false, quantities;
      }
      assert items[..n + 1][..n] == items[..n];
      assert Look(quantities, item.product) == Merged(items[..n], item.product);
      if item.product in quantities {
        WrapAdd(SumQty(items[..n], item.product), item.quantity);
      } else {
        NoneSumsToZero(items[..n], item.product);
      }
      var current := if item.product in quantities then quantities[item.product] else 0;
      ghost var before := quantities;
      quantities := quantities[item.product := Wrap(current + item.quantity)];
      forall p ensures Look(quantities, p) == Merged(items[..n + 1], p) {
        assert Look(before, p) == Merged(items[..n], p);
      }
    }
    assert items[..|items|] == items;
  }

  /** `raw` is the content of the map, in any order. */
  ghost predicate Drained(raw: seq<Line>, quantities: map<int, int>, todo: set<int>) {
    forall l :: multiset(raw)[l] ==
      if l.product in quantities && l.product !in todo && quantities[l.product] == l.quantity then 1 else 0
  }

  lemma {:induction false} RepeatsCount(s: seq<Line>, i: int, j: int)
    requires 0 <= i < j < |s| && s[i] == s[j]
    ensures multiset(s)[s[i]] >= 2
  {
    assert s == s[..j] + [s[j]] + s[j + 1..];
    assert s[i] in s[..j];
  }

  lemma {:induction false} SortDrained(raw: seq<Line>, quantities: map<int, int>)
    requires Drained(raw, quantities, {})
    ensures var lines := Sort(raw, ByProduct);
      Ascending(lines) && forall p :: Find(lines, p) == Look(quantities, p)
  {
    var lines := Sort(raw, ByProduct);
    SortSpec(raw, ByProduct);
    forall i, j | 0 <= i < j < |lines| ensures lines[i].product < lines[j].product {
      assert ByProduct(lines[i], lines[j]);
      assert lines[i] in multiset(raw) && lines[j] in multiset(raw);
      if lines[i].product == lines[j].product { RepeatsCount(lines, i, j); }
    }
    forall p ensures Find(lines, p) == Look(quantities, p) {
      if p in quantities {
        assert Line(p, quantities[p]) in multiset(lines);
        FindIn(lines, Line(p, quantities[p]));
      } else {
        var l := Line(p, if Find(lines, p).Some? then Find(lines, p).value else 0);
        FindIn(lines, l);
        assert l in lines <==> l in multiset(raw);
      }
    }
  }

  /** The merge both services run: sums per product in a map, copied out in map order and sorted. */
  method MergeItems(items: seq<Line>) returns (ok: bool, quantities: map<int, int>, lines: seq<Line>)
    ensures ok <==> forall i | 0 <= i < |items| :: items[i].product > 0 && items[i].quantity > 0
    ensures ok ==> lines == Merge(items)
    ensures ok ==> forall l | l in lines :: Look(quantities, l.product) == Some(l.quantity)
  {
    lines := [];
    ok, quantities := CollectQuantities(items);
    if !ok {
      return;
    }
    var todo := quantities.Keys;
    while todo != {}
      invariant todo <= quantities.Keys
      invariant Drained(lines, quantities, todo)
      decreases |todo|
    {
      var p := NextKey(todo);
      lines := lines + [Line(p, quantities[p])];
      todo := todo - {p};
    }
    SortDrained(lines, quantities);
    lines := Sort(lines, ByProduct);
    MergesUnique(items, lines);
    forall l | l in lines ensures Look(quantities, l.product) == Some(l.quantity) {
      FindIn(lines, l);
    }
  }

  datatype Normalized = Accepted(lines: seq<Line>) | Refused

  /** What inventory-service makes of the items of a Reserve request. */
  function Normalize(items: seq<Line>): Normalized {
    if WellFormed(items) then Accepted(Merge(items)) else Refused
  }

  method NormalizeItems(items: seq<Line>) returns (r: Normalized)
    ensures r == Normalize(items)
  {
    if |items| == 0 || |items| > MAX_LINES {
      return Refused;
    }
    var ok, _, lines := MergeItems(items);
    r := if ok then Accepted(lines) else Refused;
  }

  datatype Product = Product(name: string, price: int, status: int)
  datatype OrderItem = OrderItem(product: int, name: string, price: int, quantity: int)
  datatype ResolveError = InvalidOrderRequest | CatalogFailed(product: int) | ProductUnavailable(product: int)
  datatype Resolution =
    | Resolved(items: seq<OrderItem>, lines: seq<Line>, total: int)
    | Rejected(error: ResolveError)
    | DivisionPanic

  predicate Sellable(catalog: map<int, Product>, p: int) {
    p in catalog && catalog[p].status == 1 && catalog[p].price > 0
  }

  ghost predicate AllSellable(catalog: map<int, Product>, lines: seq<Line>) {
    forall i | 0 <= i < |lines| :: Sellable(catalog, lines[i].product)
  }

  ghost predicate TypedCatalog(catalog: map<int, Product>) {
    forall p | p in catalog :: catalog[p].price <= MAX64
  }

  /** The exact price of the lines, in unbounded arithmetic. */
  ghost function Price(catalog: map<int, Product>, lines: seq<Line>): int {
    if lines == [] then 0
    else
      var n := |lines| - 1;
      var l := lines[n];
      Price(catalog, lines[..n]) + if l.product in catalog then catalog[l.product].price * l.quantity else 0
  }

  lemma {:induction false} DivBound(a: int, b: int, m: int)
    requires b > 0
    ensures a <= m / b <==> a * b <= m
  {
    if a <= m / b {
      MulMono(a, m / b, b);
    } else {
      MulMono(m / b + 1, a, b);
    }
  }

  lemma {:induction false} MulMono(a: int, b: int, c: int)
    requires a <= b && c >= 0
    ensures a * c <= b * c
  {
  }

  lemma {:induction false} PriceGrows(catalog: map<int, Product>, lines: seq<Line>, k: nat)
    requires AllSellable(catalog, lines) && k <= |lines|
    requires InRange(lines)
    ensures 0 <= Price(catalog, lines[..k]) <= Price(catalog, lines)
  {
    if k < |lines| {
      var n := |lines| - 1;
      assert lines[..n][..k] == lines[..k];
      var l := lines[n];
      PriceGrows(catalog, lines[..n], k);
      MulMono(0, catalog[l.product].price, l.quantity);
    } else {
      assert lines[..k] == lines;
      if k > 0 {
        PriceGrows(catalog, lines[..k - 1], k - 1);
        assert lines[..k - 1][..k - 1] == lines[..k - 1];
        MulMono(0, catalog[lines[k - 1].product].price, lines[k - 1].quantity);
      }
    }
  }

  /** The overflow guard on one line and the addition behind it: it refuses a quantity that has wrapped
      below zero, and in range exactly the amounts that would take the running total beyond int64. */
  method AddAmount(price: int, quantity: int, total: int) returns (r: Option<int>)
    requires quantity != 0
    ensures price > 0 && quantity < 0 ==> r == None
    ensures 0 < price <= MAX64 && 0 < quantity <= MAX64 && 0 <= total <= MAX64 ==>
      r == if total + price * quantity > MAX64 then None else Some(total + price * quantity)
  {
    QuotientSign(quantity);
    if 0 < price <= MAX64 && 0 < quantity <= MAX64 && 0 <= total <= MAX64 {
      AmountExact(price, quantity, total);
    }
    if price > TruncDiv(MAX64, quantity) {
      return None;
    }
    var amount := Wrap(price * quantity);
    if total > Wrap(MAX64 - amount) {
      return None;
    }
    r := Some(Wrap(total + amount));
  }

  lemma {:induction false} QuotientSign(quantity: int)
    requires quantity < 0 || quantity > 0
    ensures quantity < 0 ==> TruncDiv(MAX64, quantity) <= 0
  {
  }

  lemma {:induction false} AmountExact(price: int, quantity: int, total: int)
    requires 0 < price <= MAX64 && 0 < quantity <= MAX64 && 0 <= total <= MAX64
    ensures var amount := Wrap(price * quantity);
      (price > TruncDiv(MAX64, quantity) || total > Wrap(MAX64 - amount)) <==> total + price * quantity > MAX64
    ensures total + price * quantity <= MAX64 ==> Wrap(total + Wrap(price * quantity)) == total + price * quantity
  {
    DivBound(price, quantity, MAX64);
    MulMono(1, price, quantity);
    var cost := price * quantity;
    assert cost >= 1;
    if cost <= MAX64 {
      WrapId(cost); WrapId(MAX64 - cost);
      if total + cost <= MAX64 { WrapId(total + cost); }
    }
  }

  function Priced(product: Product, l: Line): OrderItem {
    OrderItem(l.product, product.name, product.price, l.quantity)
  }

  /** The priced rows carry the catalogue's name and price and the line's quantity. */
  ghost predicate PricedFrom(catalog: map<int, Product>, lines: seq<Line>, items: seq<OrderItem>) {
    && AllSellable(catalog, lines) && |items| == |lines|
    && forall i {:trigger items[i]} | 0 <= i < |items| ::
      lines[i].product in catalog && items[i] == Priced(catalog[lines[i].product], lines[i])
  }

  /** Every merged quantity is a positive int64, so nothing has wrapped yet. */
  ghost predicate InRange(lines: seq<Line>) {
    forall i | 0 <= i < |lines| :: 0 < lines[i].quantity <= MAX64
  }

  /** All products are for sale, all quantities positive int64 values, and so is the exact price. */
  ghost predicate Priceable(catalog: map<int, Product>, lines: seq<Line>) {
    AllSellable(catalog, lines) && InRange(lines) && Price(catalog, lines) <= MAX64
  }

  /** Line `k` is the first that cannot be priced. */
  ghost predicate StopsAt(catalog: map<int, Product>, lines: seq<Line>, k: int) {
    0 <= k < |lines| && Priceable(catalog, lines[..k]) && !Priceable(catalog, lines[..k + 1])
  }

  /** What a line that cannot be priced is answered with. */
  function Fault(catalog: map<int, Product>, l: Line): Resolution {
    if l.product !in catalog then Rejected(CatalogFailed(l.product))
    else if !Sellable(catalog, l.product) then Rejected(ProductUnavailable(l.product))
    else if l.quantity == 0 then DivisionPanic
    else Rejected(InvalidOrderRequest)
  }

  /** Lines that can be priced come back as they are with their exact price; otherwise the first line
      that cannot be priced decides the answer. */
  ghost predicate PricedRight(catalog: map<int, Product>, merged: seq<Line>, r: Resolution) {
    if Priceable(catalog, merged) then
      r.Resolved? && r.lines == merged && PricedFrom(catalog, merged, r.items) && r.total == Price(catalog, merged)
    else exists k :: StopsAt(catalog, merged, k) && r == Fault(catalog, merged[k])
  }

  /** The amount guard divides by zero at a line for sale whose quantity has wrapped to zero, if all
      lines before it can be priced. */
  ghost predicate Panics(catalog: map<int, Product>, merged: seq<Line>) {
    exists k | 0 <= k < |merged| ::
      merged[k].quantity == 0 && Sellable(catalog, merged[k].product) && Priceable(catalog, merged[..k])
  }

  lemma {:induction false} PriceablePrefix(catalog: map<int, Product>, lines: seq<Line>, j: nat, k: nat)
    requires j <= k <= |lines| && Priceable(catalog, lines[..k])
    ensures Priceable(catalog, lines[..j])
  {
    PriceGrows(catalog, lines[..k], j);
    assert lines[..k][..j] == lines[..j];
    assert forall i | 0 <= i < j :: lines[..j][i] == lines[..k][i];
  }

  lemma {:induction false} StopIsUnique(catalog: map<int, Product>, lines: seq<Line>, j: int, k: int)
    requires StopsAt(catalog, lines, j) && StopsAt(catalog, lines, k)
    ensures j == k
  {
    if j < k { PriceablePrefix(catalog, lines, j + 1, k); }
    if k < j { PriceablePrefix(catalog, lines, k + 1, j); }
  }

  /** Pricing has one answer, and it is the panic exactly if the guard divides by zero. */
  lemma {:induction false} PanicIff(catalog: map<int, Product>, merged: seq<Line>, r: Resolution)
    requires PricedRight(catalog, merged, r)
    ensures r.DivisionPanic? <==> Panics(catalog, merged)
    ensures r.Resolved? <==> Priceable(catalog, merged)
  {
    if Priceable(catalog, merged) {
      assert forall k | 0 <= k < |merged| :: merged[k].quantity != 0;
    } else {
      var k :| StopsAt(catalog, merged, k) && r == Fault(catalog, merged[k]);
      forall j | 0 <= j < |merged| && merged[j].quantity == 0 && Priceable(catalog, merged[..j]) ensures j == k {
        assert merged[..j + 1][j].quantity == 0;
        StopIsUnique(catalog, merged, j, k);
      }
    }
  }

  lemma {:induction false} PriceableAll(catalog: map<int, Product>, merged: seq<Line>, k: int)
    requires StopsAt(catalog, merged, k)
    ensures !Priceable(catalog, merged)
  {
    if Priceable(catalog, merged) {
      assert merged[..|merged|] == merged;
      PriceablePrefix(catalog, merged, k + 1, |merged|);
    }
  }

  lemma {:induction false} OneMoreLine(catalog: map<int, Product>, merged: seq<Line>, n: nat)
    requires n < |merged| && Priceable(catalog, merged[..n])
    ensures var l := merged[n];
      var next :=
          Price(catalog, merged[..n]) + if l.product in catalog then catalog[l.product].price * l.quantity else 0;
      && Price(catalog, merged[..n + 1]) == next
      && (Priceable(catalog, merged[..n + 1]) <==>
           Sellable(catalog, l.product) && 0 < l.quantity <= MAX64 && next <= MAX64)
  {
    assert merged[..n + 1][..n] == merged[..n] && merged[..n + 1][n] == merged[n];
    assert merged[..n + 1] == merged[..n] + [merged[n]];
  }

  /** The pricing loop, with its overflow guard. */
  method PriceLines(merged: seq<Line>, quantities: map<int, int>, catalog: map<int, Product>) returns (r: Resolution)
    requires TypedCatalog(catalog) && Typed(merged)
    requires forall l | l in merged :: Look(quantities, l.product) == Some(l.quantity)
    ensures PricedRight(catalog, merged, r)
  {
    var items: seq<OrderItem>, lines: seq<Line>, total := [], [], 0;
    for n := 0 to |merged|
      invariant lines == merged[..n] && Priceable(catalog, lines) && PricedFrom(catalog, lines, items)
      invariant 0 <= total == Price(catalog, lines)
    {
      var p := merged[n].product;
      assert Look(quantities, p) == Some(merged[n].quantity);
      OneMoreLine(catalog, merged, n);
      if !Priceable(catalog, merged[..n + 1]) { PriceableAll(catalog, merged, n); }
      if p !in catalog {
        return Rejected(CatalogFailed(p));
      }
      var product := catalog[p];
      if product.status != 1 || product.price <= 0 {
        return Rejected(ProductUnavailable(p));
      }
      var quantity := quantities[p];
      if quantity == 0 {
        return DivisionPanic;
      }
      var sum := AddAmount(product.price, quantity, total);
      if sum == None {
        return Rejected(InvalidOrderRequest);
      }
      MulMono(0, product.price, quantity);
      total := sum.value;
      items := items + [OrderItem(p, product.name, product.price, quantity)];
      lines := lines + [Line(p, quantity)];
    }
    assert merged[..|merged|] == merged;
    r := Resolved(items, lines, total);
  }

  lemma {:induction false} MergedTyped(items: seq<Line>)
    ensures Typed(Merge(items))
  {
    var lines := Merge(items);
    MergeSpec(items);
    forall i | 0 <= i < |lines| ensures lines[i].quantity <= MAX64 {
      FindIn(lines, lines[i]);
      assert Find(lines, lines[i].product) == Merged(items, lines[i].product);
    }
  }

  /** What can be priced is what inventory-service will take: also when sums have wrapped. */
  lemma {:induction false} PricedLinesAreSound(catalog: map<int, Product>, items: seq<Line>)
    requires WellFormed(items) && Priceable(catalog, Merge(items))
    ensures WellFormed(Merge(items)) && Ascending(Merge(items)) && Typed(Merge(items))
    ensures Normalize(Merge(items)) == Accepted(Merge(items))
  {
    MergeSpec(items);
    MergedProducts(items);
    MergeShortens(items);
    MergedTyped(items);
    MergeIdempotent(Merge(items));
  }

  /** An order that was resolved meets the constraints of the tables it is written to. */
  lemma {:induction false} ResolvedIsStorable(catalog: map<int, Product>, lines: seq<Line>, r: Resolution)
    requires PricedRight(catalog, lines, r) && Priceable(catalog, lines)
    ensures r.Resolved? && 0 <= r.total <= MAX64
    ensures forall i | 0 <= i < |r.items| :: r.items[i].price > 0 && 0 < r.items[i].quantity <= MAX64
  {
    PriceGrows(catalog, lines, 0);
    forall i | 0 <= i < |r.items| ensures r.items[i].price > 0 && 0 < r.items[i].quantity <= MAX64 {
      assert Sellable(catalog, lines[i].product);
    }
  }

  /** Pricing an order. Whatever has wrapped, an order is resolved exactly if its merged lines can be
      priced, and then for their exact price and with lines inventory-service takes as they are; and the
      guard divides by zero exactly at a sum of zero. When the sums fit, the lines are the exact
      per-product sums and the amount is refused precisely for totals above int64. */
  method ResolveItems(requested: seq<Line>, catalog: map<int, Product>) returns (r: Resolution)
    requires TypedCatalog(catalog)
    ensures !WellFormed(requested) ==> r == Rejected(InvalidOrderRequest)
    ensures WellFormed(requested) ==> PricedRight(catalog, Merge(requested), r)
    ensures r.Resolved? <==> WellFormed(requested) && Priceable(catalog, Merge(requested))
    ensures r.DivisionPanic? <==> WellFormed(requested) && Panics(catalog, Merge(requested))
    ensures r.Resolved? ==> r.lines == Merge(requested) && Normalize(r.lines) == Accepted(r.lines)
    ensures WellFormed(requested) && Fits(requested) ==> !r.DivisionPanic?
    ensures WellFormed(requested) && Fits(requested) && r.Resolved? ==>
      r.total == Price(catalog, r.lines) && forall l | l in r.lines :: l.quantity == SumQty(requested, l.product)
    ensures WellFormed(requested) && Fits(requested) && AllSellable(catalog, Merge(requested)) ==>
      (r == Rejected(InvalidOrderRequest) <==> Price(catalog, Merge(requested)) > MAX64)
  {
    if |requested| == 0 || |requested| > MAX_LINES {
      return Rejected(InvalidOrderRequest);
    }
    var ok, quantities, merged := MergeItems(requested);
    if !ok {
      return Rejected(InvalidOrderRequest);
    }
    MergedTyped(requested);
    r := PriceLines(merged, quantities, catalog);
    PanicIff(catalog, merged, r);
    if r.Resolved? { PricedLinesAreSound(catalog, requested); }
    MergedExactIffFits(requested);
    FittingAnswer(catalog, requested, r);
  }

  lemma {:induction false} FittingAnswer(catalog: map<int, Product>, requested: seq<Line>, r: Resolution)
    requires WellFormed(requested) && PricedRight(catalog, Merge(requested), r)
    ensures Fits(requested) ==> InRange(Merge(requested))
    ensures Fits(requested) && AllSellable(catalog, Merge(requested)) ==>
      !r.DivisionPanic? && (r == Rejected(InvalidOrderRequest) <==> Price(catalog, Merge(requested)) > MAX64)
  {
    var merged := Merge(requested);
    MergedExactIffFits(requested);
    if Fits(requested) {
      forall i | 0 <= i < |merged| ensures 0 < merged[i].quantity <= MAX64 { assert merged[i] in merged; }
    }
  }

  /** The int64 merge is unguarded: whatever product 1 costs, four well-formed lines of it can sum to
      zero, and then the amount guard divides by zero; a fifth makes it an order for one. */
  lemma {:induction false} WrappedSumPanics(catalog: map<int, Product>)
    requires TypedCatalog(catalog) && Sellable(catalog, 1)
    ensures var q := 0x4000_0000_0000_0000;
      var items := [Line(1, q), Line(1, q), Line(1, q), Line(1, q)];
      && WellFormed(items) && Typed(items) && !Fits(items) && Panics(catalog, Merge(items))
      && WellFormed(items + [Line(1, 1)]) && SumQty(items + [Line(1, 1)], 1) == MAX64 + MAX64 + 3
      && Merge(items + [Line(1, 1)]) == [Line(1, 1)] && Priceable(catalog, [Line(1, 1)])
  {
    var q := 0x4000_0000_0000_0000;
    var items := [Line(1, q), Line(1, q), Line(1, q), Line(1, q)];
    FourOfAKind(q);
    var five := items + [Line(1, 1)];
    assert five[..4] == items;
    assert Merge(five) == [Line(1, 1)];
    assert Merge(items)[..0] == [];
    assert Priceable(catalog, Merge(items)[..0]);
    assert [Line(1, 1)][..0] == [];
  }

  lemma {:induction false} FourOfAKind(q: int)
    requires q == 0x4000_0000_0000_0000
    ensures var items := [Line(1, q), Line(1, q), Line(1, q), Line(1, q)];
      SumQty(items, 1) == 4 * q && Merge(items) == [Line(1, 0)]
  {
    var items := [Line(1, q), Line(1, q), Line(1, q), Line(1, q)];
    assert items[..3] == [Line(1, q), Line(1, q), Line(1, q)];
    assert items[..3][..2] == [Line(1, q), Line(1, q)];
    assert items[..3][..2][..1] == [Line(1, q)];
    assert items[..3][..2][..1][..0] == [];
    assert SumQty(items[..3][..2][..1], 1) == q;
    assert SumQty(items[..3][..2], 1) == 2 * q;
    assert SumQty(items[..3], 1) == 3 * q;
    assert SumQty(items, 1) == 4 * q;
    assert Merge(items[..3][..2][..1]) == [Line(1, q)];
    assert Merge(items[..3][..2]) == [Line(1, Wrap(2 * q))];
    assert Merge(items[..3]) == [Line(1, Wrap(Wrap(2 * q) + q))];
  }
}
