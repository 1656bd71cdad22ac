/** What pull_to_snapshot promises: nothing is lost or counted twice, averages and
    minima are what they claim, and the order of the pulled records does not matter. */
module SnapshotFacts {
  import opened Sequences
  import opened Order
  import opened Text
  import opened Snapshot
  import opened Ka2Pull
  import opened SnapshotBuild

  // ---- the accumulator key ----

  /** 1C keys are GUIDs, so '|' separates them from the warehouse. */
  predicate NoBar(rows: seq<StockBalance>) {
    forall s :: s in rows ==> '|' !in s.nomenclatureKey
  }

  lemma {:induction false} BarSplits(x: string, u: string, y: string, v: string)
    requires '|' !in x && '|' !in y
    requires x + "|" + u == y + "|" + v
    ensures x == y && u == v
  {
    var k := x + "|" + u;
    FindAt(k, '|', |x|);
    FindAt(y + "|" + v, '|', |y|);
    assert x == k[..|x|] && u == k[|x| + 1..];
  }

  /** Without that assumption two products share one accumulator: the key is ambiguous
      exactly when one product key is the other followed by '|' and more. */
  lemma {:induction false} KeyAmbiguity(x: string, y: string)
    ensures (exists u, v: string :: x != y && x + "|" + u == y + "|" + v) <==> (x + "|" <= y || y + "|" <= x)
  {
    if u, v: string :| x != y && x + "|" + u == y + "|" + v {
      var k := x + "|" + u;
      assert k[..|x|] == x && k[..|y|] == y;
      if |x| < |y| {
        assert k[..|x| + 1] == x + "|" && k[..|y|] == y;
        assert y[..|x| + 1] == x + "|";
      } else if |y| < |x| {
        assert k[..|y| + 1] == y + "|" && k[..|x|] == x;
        assert x[..|y| + 1] == y + "|";
      }
    }
    if x + "|" <= y {
      var u: string := y[|x| + 1..] + "|";
      assert x + "|" + u == y + "|" + "";
    }
    if y + "|" <= x {
      var v: string := x[|y| + 1..] + "|";
      assert x + "|" + "" == y + "|" + v;
    }
  }

  // ---- stocks: conservation ----

  function TrueShare(key: string, s: StockBalance): real {
    if StockKey(s) == key then s.quantity else 0.0
  }

  function OneIf(key: string, s: StockBalance): int {
    if StockKey(s) == key then 1 else 0
  }

  /** The exact quantity of the rows under a key, and how many there are. */
  function TrueSum(rows: seq<StockBalance>, key: string): real {
    SumReal(rows, s => TrueShare(key, s))
  }

  function MergedRows(rows: seq<StockBalance>, key: string): int {
    SumInt(rows, s => OneIf(key, s))
  }

  predicate NonNegative(rows: seq<StockBalance>) {
    forall s :: s in rows ==> s.quantity >= 0.0
  }

  lemma {:induction false} AvailableBounds(rows: seq<StockBalance>, key: string)
    requires NonNegative(rows)
    ensures Available(rows, key) as real <= TrueSum(rows, key)
    ensures if key in StockKeys(rows) then TrueSum(rows, key) < (Available(rows, key) + MergedRows(rows, key)) as real
            else Available(rows, key) == 0 && TrueSum(rows, key) == 0.0 && MergedRows(rows, key) == 0
    ensures MergedRows(rows, key) >= 0
  {
    if rows != [] {
      assert rows[0] in rows && forall s :: s in rows[1..] ==> s in rows;
      assert rows == [rows[0]] + rows[1..];
      AvailableBounds(rows[1..], key);
      var q := rows[0].quantity;
      assert (q.Floor as real) <= q < (q.Floor + 1) as real;
      assert key in StockKeys(rows) <==> StockKey(rows[0]) == key || key in StockKeys(rows[1..]);
    }
  }

  /** Every output row stands for the rows of its key: its available is their truncated
      sum, and the exact sum lies in [available, available + merged rows). */
  lemma {:induction false} StockRowsConserve(out: seq<StockInput>, order: seq<string>, rows: seq<StockBalance>, ws: seq<Warehouse>,
                          offers: map<string, string>, i: nat)
    requires IsStockList(out, order, rows, ws, offers) && NonNegative(rows) && i < |out|
    ensures out[i].available as real <= TrueSum(rows, order[i]) < (out[i].available + MergedRows(rows, order[i])) as real
  {
    AvailableBounds(rows, order[i]);
  }

  // ---- conservation per product and warehouse ----

  predicate InCell(sku: string, warehouse: string, s: StockBalance) {
    s.nomenclatureKey == sku && s.warehouseKey == warehouse
  }

  function CellShare(sku: string, warehouse: string, s: StockBalance): int {
    if InCell(sku, warehouse, s) then Trunc(s.quantity) else 0
  }

  function CellQuantity(sku: string, warehouse: string, s: StockBalance): real {
    if InCell(sku, warehouse, s) then s.quantity else 0.0
  }

  function CellCount(sku: string, warehouse: string, s: StockBalance): int {
    if InCell(sku, warehouse, s) then 1 else 0
  }

  lemma {:induction false} SumIntSame<T>(xs: seq<T>, f: T -> int, g: T -> int)
    requires forall x :: x in xs ==> f(x) == g(x)
    ensures SumInt(xs, f) == SumInt(xs, g)
  {
    if xs != [] {
      assert xs[0] in xs && forall x :: x in xs[1..] ==> x in xs;
      SumIntSame(xs[1..], f, g);
    }
  }

  lemma {:induction false} SumRealSame<T>(xs: seq<T>, f: T -> real, g: T -> real)
    requires forall x :: x in xs ==> f(x) == g(x)
    ensures SumReal(xs, f) == SumReal(xs, g)
  {
    if xs != [] {
      assert xs[0] in xs && forall x :: x in xs[1..] ==> x in xs;
      SumRealSame(xs[1..], f, g);
    }
  }

  /** Without a bar in the product keys, the accumulator key names one cell. */
  lemma {:induction false} KeyIsCell(sku: string, warehouse: string, s: StockBalance)
    requires '|' !in sku && '|' !in s.nomenclatureKey
    ensures StockKey(s) == sku + "|" + warehouse <==> InCell(sku, warehouse, s)
  {
    if StockKey(s) == sku + "|" + warehouse {
      BarSplits(s.nomenclatureKey, s.warehouseKey, sku, warehouse);
    }
  }

  lemma {:induction false} CellSums(rows: seq<StockBalance>, sku: string, warehouse: string)
    requires NoBar(rows) && '|' !in sku
    ensures var key := sku + "|" + warehouse;
      && Available(rows, key) == SumInt(rows, s => CellShare(sku, warehouse, s))
      && TrueSum(rows, key) == SumReal(rows, s => CellQuantity(sku, warehouse, s))
      && MergedRows(rows, key) == SumInt(rows, s => CellCount(sku, warehouse, s))
  {
    var key := sku + "|" + warehouse;
    forall s | s in rows ensures StockKey(s) == key <==> InCell(sku, warehouse, s) {
      KeyIsCell(sku, warehouse, s);
    }
    hide StockKey, InCell, Trunc, SumInt, SumReal;
    SumIntSame(rows, s => Share(key, s), s => CellShare(sku, warehouse, s));
    SumRealSame(rows, s => TrueShare(key, s), s => CellQuantity(sku, warehouse, s));
    SumIntSame(rows, s => OneIf(key, s), s => CellCount(sku, warehouse, s));
  }

  /** The line stands for its cell: it belongs to a product and warehouse of the rows, its
      available is the sum of the truncated quantities there, and the exact sum there lies in
      [available, available + rows there). */
  predicate StandsForCell(line: StockInput, rows: seq<StockBalance>) {
    var sku, warehouse := line.sku1c, line.warehouseId;
    && (exists s :: s in rows && InCell(sku, warehouse, s))
    && line.available == SumInt(rows, s => CellShare(sku, warehouse, s))
    && line.available as real <= SumReal(rows, s => CellQuantity(sku, warehouse, s))
    && SumReal(rows, s => CellQuantity(sku, warehouse, s)) < (line.available + SumInt(rows, s => CellCount(sku, warehouse, s))) as real
  }

  lemma {:induction false} LineStandsForCell(rows: seq<StockBalance>, ws: seq<Warehouse>, offers: map<string, string>, key: string)
    requires NoBar(rows) && NonNegative(rows) && key in StockKeys(rows)
    ensures StandsForCell(StockLine(rows, ws, offers, key), rows)
  {
    var f := FirstRow(rows, key);
    AvailableBounds(rows, key);
    CellSums(rows, f.nomenclatureKey, f.warehouseKey);
    assert InCell(f.nomenclatureKey, f.warehouseKey, f);
    hide Available, TrueSum, MergedRows, SumInt, SumReal, NonNegative, NoBar, OfferOf, NameOf;
  }

  /** Per product and warehouse: every line stands for its cell, and every cell that has rows
      has a line. */
  lemma {:induction false} CellsConserve(out: seq<StockInput>, rows: seq<StockBalance>, ws: seq<Warehouse>, offers: map<string, string>)
    requires HasStockList(out, rows, ws, offers) && NoBar(rows) && NonNegative(rows)
    ensures forall i :: 0 <= i < |out| ==> StandsForCell(out[i], rows)
    ensures forall s :: s in rows ==> exists i :: 0 <= i < |out| && InCell(out[i].sku1c, out[i].warehouseId, s)
  {
    var order :| IsStockList(out, order, rows, ws, offers);
    hide StandsForCell, StockLine, NonNegative;
    forall i | 0 <= i < |out| ensures StandsForCell(out[i], rows) {
      LineStandsForCell(rows, ws, offers, order[i]);
    }
    forall s | s in rows ensures exists i :: 0 <= i < |out| && InCell(out[i].sku1c, out[i].warehouseId, s) {
      assert StockKey(s) in StockKeys(rows);
      var i :| 0 <= i < |order| && order[i] == StockKey(s);
      LineOfRow(rows, ws, offers, s);
    }
  }

  lemma {:induction false} LineOfRow(rows: seq<StockBalance>, ws: seq<Warehouse>, offers: map<string, string>, s: StockBalance)
    requires NoBar(rows) && s in rows && StockKey(s) in StockKeys(rows)
    ensures var line := StockLine(rows, ws, offers, StockKey(s)); InCell(line.sku1c, line.warehouseId, s)
  {
    var f := FirstRow(rows, StockKey(s));
    BarSplits(f.nomenclatureKey, f.warehouseKey, s.nomenclatureKey, s.warehouseKey);
    hide Available, OfferOf, NameOf, FirstRow, StockKeys;
  }

  lemma {:induction false} SumOverKeys(order: seq<string>, s: StockBalance)
    requires NoDup(order)
    ensures SumInt(order, k => Share(k, s)) == if StockKey(s) in order then Trunc(s.quantity) else 0
  {
    if order != [] {
      assert order == [order[0]] + order[1..];
      SumOverKeys(order[1..], s);
    }
  }

  lemma {:induction false} SumIntSplit<T>(xs: seq<T>, f: T -> int, g: T -> int, h: T -> int)
    requires forall x :: x in xs ==> f(x) == g(x) + h(x)
    ensures SumInt(xs, f) == SumInt(xs, g) + SumInt(xs, h)
  {
    if xs != [] {
      assert xs[0] in xs && forall x :: x in xs[1..] ==> x in xs;
      SumIntSplit(xs[1..], f, g, h);
    }
  }

  lemma {:induction false} SumIntZero<T>(xs: seq<T>, f: T -> int)
    requires forall x :: x in xs ==> f(x) == 0
    ensures SumInt(xs, f) == 0
  {
    if xs != [] {
      assert xs[0] in xs && forall x :: x in xs[1..] ==> x in xs;
      SumIntZero(xs[1..], f);
    }
  }

  lemma {:induction false} AvailableTotal(order: seq<string>, rows: seq<StockBalance>)
    requires NoDup(order) && forall s :: s in rows ==> StockKey(s) in order
    ensures SumInt(order, k => Available(rows, k)) == SumInt(rows, (s: StockBalance) => Trunc(s.quantity))
  {
    if rows == [] {
      SumIntZero(order, k => Available(rows, k));
    } else {
      assert rows[0] in rows && forall s :: s in rows[1..] ==> s in rows;
      AvailableTotal(order, rows[1..]);
      SumOverKeys(order, rows[0]);
      SumIntSplit(order, k => Available(rows, k), k => Share(k, rows[0]), k => Available(rows[1..], k));
    }
  }

  lemma {:induction false} SumIntMap<T, U>(xs: seq<T>, ys: seq<U>, f: T -> int, g: U -> int)
    requires |xs| == |ys| && forall i :: 0 <= i < |xs| ==> f(xs[i]) == g(ys[i])
    ensures SumInt(xs, f) == SumInt(ys, g)
  {
    if xs != [] { SumIntMap(xs[1..], ys[1..], f, g); }
  }

  /** The snapshot as a whole holds exactly the truncated quantities of the kept rows. */
  lemma {:induction false} StockTotalConserved(out: seq<StockInput>, rows: seq<StockBalance>, ws: seq<Warehouse>, offers: map<string, string>)
    requires HasStockList(out, rows, ws, offers)
    ensures SumInt(out, (s: StockInput) => s.available) == SumInt(rows, (s: StockBalance) => Trunc(s.quantity))
  {
    var order :| IsStockList(out, order, rows, ws, offers);
    assert forall s :: s in rows ==> StockKey(s) in StockKeys(rows);
    AvailableTotal(order, rows);
    SumIntMap(order, out, k => Available(rows, k), (s: StockInput) => s.available);
  }

  // ---- stocks: one row per (sku, warehouse), order irrelevant ----

  function StockSortKey(s: StockInput): Key { [s.sku1c, s.warehouseId] }

  function LineOrNone(rows: seq<StockBalance>, ws: seq<Warehouse>, offers: map<string, string>, key: string): Option<StockInput> {
    if key in StockKeys(rows) then Some(StockLine(rows, ws, offers, key)) else None
  }

  lemma {:induction false} StockListDistinct(out: seq<StockInput>, rows: seq<StockBalance>, ws: seq<Warehouse>, offers: map<string, string>)
    requires HasStockList(out, rows, ws, offers)
    ensures DistinctKeys(out, StockSortKey)
  {
    var order :| IsStockList(out, order, rows, ws, offers);
    var names := ListNames(out, order, rows, ws, offers);
    hide IsStockList, HasStockList, StockSortKey, StockLine, FirstRow;
    forall i, j | 0 <= i < j < |out| ensures StockSortKey(out[i]) != StockSortKey(out[j]) {
      assert names[i] != names[j];
    }
  }

  lemma {:induction false} ListNames(out: seq<StockInput>, order: seq<string>, rows: seq<StockBalance>, ws: seq<Warehouse>, offers: map<string, string>)
    returns (names: seq<string>)
    requires IsStockList(out, order, rows, ws, offers)
    ensures |names| == |out| && NoDup(names)
    ensures forall i :: 0 <= i < |out| ==> names[i] == StockSortKey(out[i])[0] + "|" + StockSortKey(out[i])[1]
  {
    names := order;
    forall i | 0 <= i < |out| ensures names[i] == StockSortKey(out[i])[0] + "|" + StockSortKey(out[i])[1] {
      LineKey(rows, ws, offers, order[i]);
    }
  }

  /** The line of a key names the product and warehouse the key was made of. */
  lemma {:induction false} LineKey(rows: seq<StockBalance>, ws: seq<Warehouse>, offers: map<string, string>, key: string)
    requires key in StockKeys(rows)
    ensures var k := StockSortKey(StockLine(rows, ws, offers, key)); k[0] + "|" + k[1] == key
  {
  }

  lemma {:induction false} StockLinePermutation(xs: seq<StockBalance>, ys: seq<StockBalance>, ws: seq<Warehouse>, offers: map<string, string>, key: string)
    requires multiset(xs) == multiset(ys) && NoBar(xs)
    ensures StockKeys(xs) == StockKeys(ys)
    ensures LineOrNone(xs, ws, offers, key) == LineOrNone(ys, ws, offers, key)
  {
    PermutationSize(xs, ys);
    if key in StockKeys(xs) {
      SumIntPermutation(xs, ys, s => Share(key, s));
      var a, b := FirstRow(xs, key), FirstRow(ys, key);
      BarSplits(a.nomenclatureKey, a.warehouseKey, b.nomenclatureKey, b.warehouseKey);
    }
  }

  lemma {:induction false} UnwrapPermutation<T>(xs: seq<T>, ys: seq<T>)
    requires multiset(Map(xs, (x: T) => Some(x))) == multiset(Map(ys, (x: T) => Some(x)))
    ensures multiset(xs) == multiset(ys)
  {
    forall x ensures multiset(xs)[x] == multiset(ys)[x] {
      CountWrapped(xs, x);
      CountWrapped(ys, x);
    }
  }

  lemma {:induction false} CountWrapped<T>(xs: seq<T>, x: T)
    ensures multiset(Map(xs, (y: T) => Some(y)))[Some(x)] == multiset(xs)[x]
  {
    var f := (y: T) => Some(y);
    if xs != [] {
      var rest := xs[1..];
      CountWrapped(rest, x);
      assert xs == [xs[0]] + rest && Map(xs, f) == [Some(xs[0])] + Map(rest, f);
      hide Map;
      assert multiset(Map(xs, f))[Some(x)] == multiset([Some(xs[0])])[Some(x)] + multiset(Map(rest, f))[Some(x)];
    }
  }

  lemma {:induction false} StockListWrapped(out: seq<StockInput>, order: seq<string>, rows: seq<StockBalance>, ws: seq<Warehouse>, offers: map<string, string>)
    requires IsStockList(out, order, rows, ws, offers)
    ensures Map(order, k => LineOrNone(rows, ws, offers, k)) == Map(out, (s: StockInput) => Some(s))
  {
  }

  lemma {:induction false} StockListsAgree(out1: seq<StockInput>, rows1: seq<StockBalance>, out2: seq<StockInput>, rows2: seq<StockBalance>,
                        ws: seq<Warehouse>, offers: map<string, string>)
    requires multiset(rows1) == multiset(rows2) && NoBar(rows1)
    requires HasStockList(out1, rows1, ws, offers) && HasStockList(out2, rows2, ws, offers)
    ensures multiset(out1) == multiset(out2)
  {
    var o1 :| IsStockList(out1, o1, rows1, ws, offers);
    var o2 :| IsStockList(out2, o2, rows2, ws, offers);
    StockListWrapped(out1, o1, rows1, ws, offers);
    StockListWrapped(out2, o2, rows2, ws, offers);
    StockLinePermutation(rows1, rows2, ws, offers, "");
    NoDupSameElements(o1, o2);
    WrappedAgree(o1, rows1, o2, rows2, ws, offers);
    UnwrapPermutation(out1, out2);
  }

  lemma {:induction false} WrappedAgree(o1: seq<string>, rows1: seq<StockBalance>, o2: seq<string>, rows2: seq<StockBalance>,
                     ws: seq<Warehouse>, offers: map<string, string>)
    requires multiset(rows1) == multiset(rows2) && NoBar(rows1) && multiset(o1) == multiset(o2)
    ensures multiset(Map(o1, k => LineOrNone(rows1, ws, offers, k))) == multiset(Map(o2, k => LineOrNone(rows2, ws, offers, k)))
  {
    var f, g := k => LineOrNone(rows1, ws, offers, k), k => LineOrNone(rows2, ws, offers, k);
    MapPermutation(o1, o2, f);
    forall k ensures f(k) == g(k) { StockLinePermutation(rows1, rows2, ws, offers, k); }
    assert Map(o2, f) == Map(o2, g);
  }

  // ---- costs ----

  /** The average is the total cost over the total quantity of the rows of the product. */
  lemma {:induction false} AverageTimesQuantity(costs: seq<CostBalance>, nom: map<string, string>, suppliers: seq<SupplierPrice>, sku: string)
    ensures var c := CostLine(costs, nom, suppliers, sku);
      var qty, cost := TotalQty(costs, nom, sku), TotalCost(costs, nom, sku);
      && (c.batchAvgCost.Some? <==> qty > 0.0 && cost > 0.0)
      && (c.batchAvgCost.Some? ==> c.batchAvgCost.value * qty == cost)
  {
  }

  lemma {:induction false} Distribute(k: real, q: real, t: real)
    ensures k * (q + t) == k * q + k * t
  {
  }

  /** Totals of the first row and the rest. */
  lemma {:induction false} TotalsHead(costs: seq<CostBalance>, nom: map<string, string>, sku: string)
    requires costs != []
    ensures TotalQty(costs, nom, sku) == (if ForSku(nom, sku, costs[0]) then costs[0].quantity else 0.0) + TotalQty(costs[1..], nom, sku)
    ensures TotalCost(costs, nom, sku) == (if ForSku(nom, sku, costs[0]) then costs[0].cost else 0.0) + TotalCost(costs[1..], nom, sku)
  {
  }

  lemma {:induction false} TotalsBetween(costs: seq<CostBalance>, nom: map<string, string>, sku: string, lo: real, hi: real)
    requires forall c :: c in costs && ForSku(nom, sku, c) ==> c.quantity > 0.0 && lo * c.quantity <= c.cost <= hi * c.quantity
    ensures lo * TotalQty(costs, nom, sku) <= TotalCost(costs, nom, sku) <= hi * TotalQty(costs, nom, sku)
    ensures TotalQty(costs, nom, sku) >= 0.0
  {
    if costs != [] {
      var rest := costs[1..];
      assert costs[0] in costs && forall c :: c in rest ==> c in costs;
      TotalsBetween(rest, nom, sku, lo, hi);
      TotalsHead(costs, nom, sku);
      hide TotalQty, TotalCost, ForSku;
      var q := if ForSku(nom, sku, costs[0]) then costs[0].quantity else 0.0;
      Distribute(lo, q, TotalQty(rest, nom, sku));
      Distribute(hi, q, TotalQty(rest, nom, sku));
    }
  }

  /** With positive row quantities the average lies between any bounds of the unit costs
      of the rows, hence between the smallest and the largest unit cost. */
  lemma {:induction false} AverageBetweenUnitCosts(costs: seq<CostBalance>, nom: map<string, string>, suppliers: seq<SupplierPrice>,
                                sku: string, lo: real, hi: real)
    requires forall c :: c in costs && ForSku(nom, sku, c) ==> c.quantity > 0.0 && lo <= c.cost / c.quantity <= hi
    requires CostLine(costs, nom, suppliers, sku).batchAvgCost.Some?
    ensures lo <= CostLine(costs, nom, suppliers, sku).batchAvgCost.value <= hi
  {
    var qty, cost := TotalQty(costs, nom, sku), TotalCost(costs, nom, sku);
    assert qty > 0.0 && CostLine(costs, nom, suppliers, sku).batchAvgCost == Some(cost / qty);
    hide *;
    forall c | c in costs && ForSku(nom, sku, c) ensures lo * c.quantity <= c.cost <= hi * c.quantity {
      ScaleBounds(lo, c.cost, c.quantity, hi);
    }
    TotalsBetween(costs, nom, sku, lo, hi);
    QuotientBounds(lo, cost, qty, hi);
  }

  lemma {:induction false} ScaleBounds(lo: real, c: real, q: real, hi: real)
    requires q > 0.0 && lo <= c / q <= hi
    ensures lo * q <= c <= hi * q
  {
    var u := c / q;
    assert u * q == c;
    assert (u - lo) * q >= 0.0 && (hi - u) * q >= 0.0;
    assert (u - lo) * q == u * q - lo * q;
    assert (hi - u) * q == hi * q - u * q;
  }

  lemma {:induction false} QuotientBounds(lo: real, c: real, q: real, hi: real)
    requires q > 0.0 && lo * q <= c <= hi * q
    ensures lo <= c / q <= hi
  {
    var u := c / q;
    assert u * q == c;
    assert (u - lo) * q == u * q - lo * q;
    assert (hi - u) * q == hi * q - u * q;
    SignOfProduct(u - lo, q);
    SignOfProduct(hi - u, q);
  }

  lemma {:induction false} SignOfProduct(a: real, q: real)
    requires q > 0.0 && a * q >= 0.0
    ensures a >= 0.0
  {
  }

  /** purchase_cost is the smallest positive supplier price of the product, taken with the
      period of a row that has this price; absent exactly when there is none. */
  lemma {:induction false} BestIsMinimum(suppliers: seq<SupplierPrice>, sku: string)
    ensures var b := BestPurchase(suppliers, sku);
      && (b.price > 0.0 || b == Best(0.0, ""))
      && (b.price > 0.0 <==> exists s :: s in suppliers && Offers(sku, s))
      && (b.price > 0.0 ==> exists s :: s in suppliers && Offers(sku, s) && s.price == b.price && s.period == b.at)
      && (forall s :: s in suppliers && Offers(sku, s) ==> b.price <= s.price)
  {
    if suppliers != [] {
      var n := |suppliers| - 1;
      BestIsMinimum(suppliers[..n], sku);
      assert suppliers == suppliers[..n] + [suppliers[n]];
      assert forall s :: s in suppliers <==> s in suppliers[..n] || s == suppliers[n];
    }
  }

  predicate SameOffer(s: SupplierPrice, t: SupplierPrice) {
    s.nomenclatureKey == t.nomenclatureKey && s.price == t.price
  }

  /** Equal-price offers for a product carry equal periods. */
  predicate TiesAgree(suppliers: seq<SupplierPrice>) {
    forall s, t :: s in suppliers && t in suppliers && SameOffer(s, t) ==> s.period == t.period
  }

  lemma {:induction false} BestPermutation(xs: seq<SupplierPrice>, ys: seq<SupplierPrice>, sku: string)
    requires multiset(xs) == multiset(ys) && TiesAgree(xs)
    ensures BestPurchase(xs, sku) == BestPurchase(ys, sku)
  {
    PermutationSize(xs, ys);
    BestIsMinimum(xs, sku);
    BestIsMinimum(ys, sku);
    var a, b := BestPurchase(xs, sku), BestPurchase(ys, sku);
    if a.price > 0.0 {
      var s :| s in xs && Offers(sku, s) && s.price == a.price && s.period == a.at;
      var t :| t in ys && Offers(sku, t) && t.price == b.price && t.period == b.at;
      assert t in xs && s in ys;
      assert SameOffer(s, t);
    }
  }

  lemma {:induction false} AnalitMember(analytics: seq<AnalyticKey>, r: string)
    requires OneProductPerAnalytic(analytics)
    ensures r in AnalitToNom(analytics) <==> exists a :: a in analytics && a.refKey == r && r != "" && a.nomenclatureKey != ""
    ensures forall a :: a in analytics && a.refKey == r && r in AnalitToNom(analytics) ==> AnalitToNom(analytics)[r] == a.nomenclatureKey
  {
    if analytics != [] {
      var n := |analytics| - 1;
      AnalitMember(analytics[..n], r);
      assert analytics == analytics[..n] + [analytics[n]];
      assert forall a :: a in analytics <==> a in analytics[..n] || a == analytics[n];
    }
  }

  lemma {:induction false} AnalitPermutation(xs: seq<AnalyticKey>, ys: seq<AnalyticKey>)
    requires multiset(xs) == multiset(ys) && OneProductPerAnalytic(xs)
    ensures AnalitToNom(xs) == AnalitToNom(ys)
  {
    PermutationSize(xs, ys);
    var f, g := AnalitToNom(xs), AnalitToNom(ys);
    forall r ensures r in f <==> r in g { AnalitMember(xs, r); AnalitMember(ys, r); }
    forall r | r in f ensures f[r] == g[r] { AnalitMember(xs, r); AnalitMember(ys, r); }
  }

  lemma {:induction false} CostLinePermutation(p: PullResult, q: PullResult, nom: map<string, string>, sku: string)
    requires multiset(p.costs) == multiset(q.costs) && multiset(p.suppliers) == multiset(q.suppliers)
    requires TiesAgree(p.suppliers)
    ensures CostLine(p.costs, nom, p.suppliers, sku) == CostLine(q.costs, nom, q.suppliers, sku)
  {
    SumRealPermutation(p.costs, q.costs, c => if ForSku(nom, sku, c) then c.cost else 0.0);
    SumRealPermutation(p.costs, q.costs, c => if ForSku(nom, sku, c) then c.quantity else 0.0);
    BestPermutation(p.suppliers, q.suppliers, sku);
  }

  lemma {:induction false} CostLinesAgree(p: PullResult, q: PullResult, nom: map<string, string>, o1: seq<string>, o2: seq<string>)
    requires multiset(p.costs) == multiset(q.costs) && multiset(p.suppliers) == multiset(q.suppliers)
    requires TiesAgree(p.suppliers) && multiset(o1) == multiset(o2)
    ensures multiset(CostLinesFor(o1, p.costs, nom, p.suppliers)) == multiset(CostLinesFor(o2, q.costs, nom, q.suppliers))
  {
    var f, g := sku => CostLine(p.costs, nom, p.suppliers, sku), sku => CostLine(q.costs, nom, q.suppliers, sku);
    forall k ensures f(k) == g(k) { CostLinePermutation(p, q, nom, k); }
    hide CostLine, KeepsCostLine, TiesAgree, Filter;
    MapPermutation(o1, o2, f);
    assert Map(o2, f) == Map(o2, g);
    FilterPermutation(Map(o1, f), Map(o2, g), KeepsCostLine);
  }

  lemma {:induction false} CostListsAgree(out1: seq<CostInput>, p: PullResult, out2: seq<CostInput>, q: PullResult)
    requires SameRecords(p, q) && OneProductPerAnalytic(p.analytics) && TiesAgree(p.suppliers)
    requires HasCostList(out1, p.costs, AnalitToNom(p.analytics), p.suppliers)
    requires HasCostList(out2, q.costs, AnalitToNom(q.analytics), q.suppliers)
    ensures multiset(out1) == multiset(out2)
  {
    hide TiesAgree, OneProductPerAnalytic, AnalitToNom, CostLinesFor;
    AnalitPermutation(p.analytics, q.analytics);
    var nom := AnalitToNom(p.analytics);
    var o1 :| IsCostList(out1, o1, p.costs, nom, p.suppliers);
    var o2 :| IsCostList(out2, o2, q.costs, nom, q.suppliers);
    SameCostSkus(p.costs, q.costs, nom);
    NoDupSameElements(o1, o2);
    CostLinesAgree(p, q, nom, o1, o2);
  }

  lemma {:induction false} SameCostSkus(xs: seq<CostBalance>, ys: seq<CostBalance>, nom: map<string, string>)
    requires multiset(xs) == multiset(ys)
    ensures CostSkus(xs, nom) == CostSkus(ys, nom)
  {
    PermutationSize(xs, ys);
  }

  function CostSortKey(c: CostInput): Key { [c.sku1c] }

  lemma {:induction false} FilterKeepsOrder<T>(xs: seq<T>, p: T -> bool, key: T -> Key)
    requires DistinctKeys(xs, key)
    ensures DistinctKeys(Filter(xs, p), key)
  {
    if xs != [] {
      FilterKeepsOrder(xs[1..], p, key);
      forall y | y in Filter(xs[1..], p) ensures key(y) != key(xs[0]) {
        assert y in xs[1..];
      }
    }
  }

  lemma {:induction false} CostLineKey(costs: seq<CostBalance>, nom: map<string, string>, suppliers: seq<SupplierPrice>, sku: string)
    ensures CostSortKey(CostLine(costs, nom, suppliers, sku)) == [sku]
  {
    hide TotalCost, TotalQty, AverageOf, BestPurchase;
  }

  /** No product appears twice among the costs. */
  lemma {:induction false} CostListDistinct(out: seq<CostInput>, costs: seq<CostBalance>, nom: map<string, string>, suppliers: seq<SupplierPrice>)
    requires HasCostList(out, costs, nom, suppliers)
    ensures DistinctKeys(out, CostSortKey)
  {
    hide CostLine, CostSkus, KeepsCostLine, CostSortKey;
    var order :| IsCostList(out, order, costs, nom, suppliers);
    var lines := Map(order, sku => CostLine(costs, nom, suppliers, sku));
    forall i, j | 0 <= i < j < |lines| ensures CostSortKey(lines[i]) != CostSortKey(lines[j]) {
      CostLineKey(costs, nom, suppliers, order[i]);
      CostLineKey(costs, nom, suppliers, order[j]);
      assert [order[i]][0] != [order[j]][0];
    }
    hide Map, Filter;
    FilterKeepsOrder(lines, KeepsCostLine, CostSortKey);
  }
}
