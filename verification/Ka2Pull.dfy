/** Ka2Inventory::pull: the five reads and the loops that turn raw rows into records. */
module Ka2Pull {
  import opened Sequences
  import opened ChunkVector
  import opened ChunkWorkers
  import opened BalanceRead
  import opened FlatRead

  datatype Warehouse = Warehouse(refKey: string, description: string, deletionMark: bool, isFolder: bool)
  datatype AnalyticKey = AnalyticKey(refKey: string, nomenclatureKey: string)
  datatype RawStock = RawStock(nomenclatureKey: string, characteristicKey: string, warehouseKey: string,
                               onHand: real, reserved: real)
  datatype StockBalance = StockBalance(nomenclatureKey: string, characteristicKey: string,
                                       warehouseKey: string, quantity: real)
  datatype CostBalance = CostBalance(analyticKey: string, organizationKey: string, batchKey: string,
                                     quantity: real, cost: real)
  datatype SupplierPrice = SupplierPrice(period: string, partnerKey: string, nomenclatureKey: string, price: real)

  datatype PullResult = PullResult(warehouses: seq<Warehouse>, analytics: seq<AnalyticKey>,
                                   stocks: seq<StockBalance>, costs: seq<CostBalance>,
                                   suppliers: seq<SupplierPrice>)

  // ---- the row loops ----

  predicate KeptWarehouse(w: Warehouse) { !w.deletionMark && !w.isFolder && w.refKey != "" }

  predicate KeptStock(r: RawStock) { r.nomenclatureKey != "" }

  function Quantity(r: RawStock): real {
    if r.onHand - r.reserved > 0.0 then r.onHand - r.reserved else 0.0
  }

  function StockOf(r: RawStock): StockBalance {
    StockBalance(r.nomenclatureKey, r.characteristicKey, r.warehouseKey, Quantity(r))
  }

  function StocksOf(rows: seq<RawStock>): seq<StockBalance> {
    Map(Filter(rows, KeptStock), StockOf)
  }

  predicate KeptCost(c: CostBalance) { c.analyticKey != "" }

  predicate KeptSupplier(s: SupplierPrice) { s.nomenclatureKey != "" && s.price > 0.0 }

  /** The first row of each non-empty Ref_Key, in order of arrival. */
  function AnalyticsOf(rows: seq<AnalyticKey>): (out: seq<AnalyticKey>)
    ensures forall i :: 0 <= i < |out| ==> out[i] in rows && out[i].refKey != ""
    ensures forall i :: 0 <= i < |rows| && rows[i].refKey != "" ==> rows[i].refKey in AnalyticKeys(out)
    ensures NoDup(AnalyticKeys(out))
  {
    if rows == [] then []
    else
      var last := rows[|rows| - 1];
      var before := AnalyticsOf(rows[..|rows| - 1]);
      assert rows == rows[..|rows| - 1] + [last];
      AnalyticKeysSnoc(before, last);
      if last.refKey == "" || last.refKey in AnalyticKeys(before) then before
      else before + [last]
  }

  lemma {:induction false} AnalyticKeysSnoc(out: seq<AnalyticKey>, a: AnalyticKey)
    ensures AnalyticKeys(out + [a]) == AnalyticKeys(out) + [a.refKey]
  {
  }

  lemma {:induction false} AnalyticsSnoc(rows: seq<AnalyticKey>, i: nat)
    requires i < |rows|
    ensures AnalyticsOf(rows[..i + 1])
         == if rows[i].refKey == "" || rows[i].refKey in AnalyticKeys(AnalyticsOf(rows[..i])) then AnalyticsOf(rows[..i])
            else AnalyticsOf(rows[..i]) + [rows[i]]
  {
    assert rows[..i + 1][..i] == rows[..i];
  }

  method ReadAnalytics(rows: seq<AnalyticKey>) returns (out: seq<AnalyticKey>)
    ensures out == AnalyticsOf(rows)
  {
    out := [];
    var seen: set<string> := {};
    assert AnalyticsOf([]) == [] && AnalyticKeys([]) == [];
    hide *;
    for i := 0 to |rows|
      invariant out == AnalyticsOf(rows[..i])
      invariant forall k :: k in seen <==> k in AnalyticKeys(out)
    {
      AnalyticsSnoc(rows, i);
      var a := rows[i];
      AnalyticKeysSnoc(out, a);
      if a.refKey == "" { continue; }
      if a.refKey in seen { continue; }
      seen := seen + {a.refKey};
      out := out + [a];
    }
    assert rows[..|rows|] == rows;
  }

  lemma {:induction false} StocksAppend(rows: seq<RawStock>, i: nat)
    requires i < |rows|
    ensures StocksOf(rows[..i + 1])
         == if KeptStock(rows[i]) then StocksOf(rows[..i]) + [StockOf(rows[i])] else StocksOf(rows[..i])
  {
    FilterAppend(rows, i, KeptStock);
  }

  /** The record of one row. */
  method StockRecord(r: RawStock) returns (s: StockBalance)
    ensures s == StockOf(r)
  {
    var onHand, reserved := r.onHand, r.reserved;
    var quantity := if onHand - reserved > 0.0 then onHand - reserved else 0.0;
    s := StockBalance(r.nomenclatureKey, r.characteristicKey, r.warehouseKey, quantity);
  }

  method ReadStocks(rows: seq<RawStock>) returns (out: seq<StockBalance>)
    ensures out == StocksOf(rows)
    ensures forall s :: s in out ==> s.quantity >= 0.0 && s.nomenclatureKey != ""
  {
    out := [];
    assert StocksOf([]) == [];
    hide StocksOf, StockOf, Quantity;
    for i := 0 to |rows|
      invariant out == StocksOf(rows[..i])
    {
      StocksAppend(rows, i);
      var record := StockRecord(rows[i]);
      if rows[i].nomenclatureKey == "" { continue; }
      out := out + [record];
    }
    assert rows[..|rows|] == rows;
    StocksNonNegative(rows);
  }

  lemma {:induction false} StocksNonNegative(rows: seq<RawStock>)
    ensures forall s :: s in StocksOf(rows) ==> s.quantity >= 0.0 && s.nomenclatureKey != ""
  {
    forall s | s in StocksOf(rows) ensures s.quantity >= 0.0 && s.nomenclatureKey != "" {
      var kept := Filter(rows, KeptStock);
      var i :| 0 <= i < |StocksOf(rows)| && StocksOf(rows)[i] == s;
      assert kept[i] in kept && s == StockOf(kept[i]);
    }
  }

  method ReadSuppliers(rows: seq<SupplierPrice>) returns (out: seq<SupplierPrice>)
    ensures out == Filter(rows, KeptSupplier)
  {
    out := [];
    for i := 0 to |rows|
      invariant out == Filter(rows[..i], KeptSupplier)
    {
      FilterAppend(rows, i, KeptSupplier);
      if rows[i].nomenclatureKey == "" { continue; }
      if rows[i].price <= 0.0 { continue; }
      out := out + [rows[i]];
    }
    assert rows[..|rows|] == rows;
  }

  method ReadCosts(rows: seq<CostBalance>, analyticKeys: seq<string>) returns (out: seq<CostBalance>)
    ensures out == if analyticKeys == [] then [] else Filter(rows, KeptCost)
  {
    out := [];
    if analyticKeys == [] { return; }
    for i := 0 to |rows|
      invariant out == Filter(rows[..i], KeptCost)
    {
      FilterAppend(rows, i, KeptCost);
      if rows[i].analyticKey == "" { continue; }
      out := out + [rows[i]];
    }
    assert rows[..|rows|] == rows;
  }

  /** The row loop of read_warehouses over one page. */
  method KeepWarehouses(before: seq<Warehouse>, items: seq<Warehouse>) returns (out: seq<Warehouse>)
    ensures out == before + Filter(items, KeptWarehouse)
  {
    out := before;
    for i := 0 to |items|
      invariant out == before + Filter(items[..i], KeptWarehouse)
    {
      FilterAppend(items, i, KeptWarehouse);
      var w := items[i];
      if w.deletionMark || w.isFolder { continue; }
      if w.refKey == "" { continue; }
      out := out + [w];
    }
    assert items[..|items|] == items;
  }

  function WarehousesFrom(server: seq<Warehouse>, pageSize: nat, fault: nat -> bool, skip: nat): seq<Warehouse> {
    Filter(PagedRows(server, pageSize, fault, skip), KeptWarehouse)
  }

  /** The listing from a skip on is the page there and what follows it. */
  lemma {:induction false} PagedSplit(server: seq<Warehouse>, pageSize: nat, fault: nat -> bool, skip: nat)
    requires skip <= |server| && !fault(skip) && Page(server, skip, pageSize) != []
    ensures var items := Page(server, skip, pageSize);
      && skip + |items| <= |server|
      && PagedRows(server, pageSize, fault, skip)
           == items + if |items| < pageSize then [] else PagedRows(server, pageSize, fault, skip + |items|)
  {
    PagedStep(server, pageSize, fault, skip);
    ConcatAssociative(Page(server, skip, pageSize), [], []);
    hide PagedRows, Page;
  }

  lemma {:induction false} NothingKept()
    ensures Filter([], KeptWarehouse) == []
  {
  }

  lemma {:induction false} WarehousesPage(server: seq<Warehouse>, pageSize: nat, fault: nat -> bool, skip: nat)
    requires skip <= |server| && !fault(skip) && Page(server, skip, pageSize) != []
    ensures var items := Page(server, skip, pageSize);
      && skip + |items| <= |server|
      && WarehousesFrom(server, pageSize, fault, skip)
           == Filter(items, KeptWarehouse) + if |items| < pageSize then [] else WarehousesFrom(server, pageSize, fault, skip + |items|)
  {
    NothingKept();
    hide PagedRows, Page, Filter, KeptWarehouse;
    PagedSplit(server, pageSize, fault, skip);
    var items := Page(server, skip, pageSize);
    FilterConcat(items, if |items| < pageSize then [] else PagedRows(server, pageSize, fault, skip + |items|), KeptWarehouse);
  }

  lemma {:induction false} WarehousesEnd(server: seq<Warehouse>, pageSize: nat, fault: nat -> bool, skip: nat)
    requires skip <= |server| && (fault(skip) || Page(server, skip, pageSize) == [])
    ensures WarehousesFrom(server, pageSize, fault, skip) == []
  {
    PagedStep(server, pageSize, fault, skip);
    NothingKept();
    hide PagedRows, Page, Filter, KeptWarehouse;
  }

  /** read_warehouses: the pages of the whole catalogue, up to the first that fails. */
  method ReadWarehouses(server: seq<Warehouse>, pageSize: nat, fault: nat -> bool) returns (out: seq<Warehouse>)
    ensures out == WarehousesFrom(server, pageSize, fault, 0)
  {
    hide *;
    out := [];
    var skip := 0;
    while true
      invariant skip <= |server|
      invariant out + WarehousesFrom(server, pageSize, fault, skip) == WarehousesFrom(server, pageSize, fault, 0)
      decreases |server| - skip
    {
      ConcatAssociative(out, [], []);
      if fault(skip) {
        WarehousesEnd(server, pageSize, fault, skip);
        break;
      }
      var items := Page(server, skip, pageSize);
      if items == [] {
        WarehousesEnd(server, pageSize, fault, skip);
        break;
      }
      WarehousesPage(server, pageSize, fault, skip);
      ConcatAssociative(out, Filter(items, KeptWarehouse), WarehousesFrom(server, pageSize, fault, skip + |items|));
      ConcatAssociative(Filter(items, KeptWarehouse), [], []);
      out := KeepWarehouses(out, items);
      if |items| < pageSize { break; }
      skip := skip + |items|;
    }
  }

  /** Without a failed page the whole catalogue is read. */
  lemma {:induction false} WholeCatalogueRead(server: seq<Warehouse>, pageSize: nat, fault: nat -> bool)
    requires NoPageLost(server, pageSize, fault, 0)
    ensures WarehousesFrom(server, pageSize, fault, 0) == Filter(server, KeptWarehouse)
  {
    PagedRowsExact(server, pageSize, fault, 0);
    assert server[0..] == server;
  }

  // ---- which rows become records, field by field ----

  /** A stock record for each row with a product, in order: its keys, and what is on hand
      beyond what is to be shipped. */
  lemma {:induction false} StockRecordsOf(rows: seq<RawStock>) returns (at: seq<nat>)
    ensures |at| == |StocksOf(rows)| && forall k, l :: 0 <= k < l < |at| ==> at[k] < at[l]
    ensures forall i: nat :: i in at <==> i < |rows| && rows[i].nomenclatureKey != ""
    ensures forall k :: 0 <= k < |at| ==> at[k] < |rows| && RecordFor(StocksOf(rows)[k], rows[at[k]])
  {
    at := FilterPicks(rows, KeptStock);
    forall r ensures RecordFor(StockOf(r), r) && (KeptStock(r) <==> r.nomenclatureKey != "") { FieldsOfRecord(r); }
    hide Filter, Map, StockOf, RecordFor, KeptStock;
  }

  lemma {:induction false} FieldsOfRecord(r: RawStock)
    ensures RecordFor(StockOf(r), r) && (KeptStock(r) <==> r.nomenclatureKey != "")
  {
  }

  predicate RecordFor(s: StockBalance, r: RawStock) {
    && s.nomenclatureKey == r.nomenclatureKey && s.characteristicKey == r.characteristicKey && s.warehouseKey == r.warehouseKey
    && s.quantity == if r.onHand >= r.reserved then r.onHand - r.reserved else 0.0
  }

  ghost predicate IsFirstOfKey(rows: seq<AnalyticKey>, i: int) {
    0 <= i < |rows| && rows[i].refKey != "" && forall j :: 0 <= j < i ==> rows[j].refKey != rows[i].refKey
  }

  /** at lists the first row of each key, in order, and out these rows. */
  ghost predicate Firsts(rows: seq<AnalyticKey>, at: seq<nat>, out: seq<AnalyticKey>) {
    && |at| == |out| && (forall k, l :: 0 <= k < l < |at| ==> at[k] < at[l])
    && (forall k :: 0 <= k < |at| ==> at[k] < |rows| && out[k] == rows[at[k]] && IsFirstOfKey(rows, at[k]))
    && (forall i: nat :: IsFirstOfKey(rows, i) ==> i in at)
  }

  lemma {:induction false} NoFirsts()
    ensures Firsts([], [], AnalyticsOf([]))
  {
  }

  lemma {:induction false} FirstsSnoc(rows: seq<AnalyticKey>, at: seq<nat>, out: seq<AnalyticKey>)
    requires rows != [] && Firsts(rows[..|rows| - 1], at, out)
    ensures var n := |rows| - 1;
      if IsFirstOfKey(rows, n) then Firsts(rows, at + [n], out + [rows[n]]) else Firsts(rows, at, out)
  {
    var n := |rows| - 1;
    FirstsStep(rows);
    hide IsFirstOfKey;
    assert forall k :: 0 <= k < |at| ==> rows[..n][at[k]] == rows[at[k]];
    forall i: nat | IsFirstOfKey(rows, i) && i != n ensures i in at {
      assert IsFirstOfKey(rows[..n], i);
    }
  }

  /** The record of an analytic key is its first row. */
  lemma {:induction false} FirstOfEachKey(rows: seq<AnalyticKey>) returns (at: seq<nat>)
    ensures Firsts(rows, at, AnalyticsOf(rows))
  {
    hide *;
    if rows == [] {
      NoFirsts();
      at := [];
    } else {
      var n := |rows| - 1;
      at := FirstOfEachKey(rows[..n]);
      AnalyticsSnoc(rows, n);
      assert rows[..n + 1] == rows;
      KeySeen(rows);
      FirstsSnoc(rows, at, AnalyticsOf(rows[..n]));
      at := if IsFirstOfKey(rows, n) then at + [n] else at;
    }
  }

  lemma {:induction false} FirstsStep(rows: seq<AnalyticKey>)
    requires rows != []
    ensures var n := |rows| - 1; forall i :: IsFirstOfKey(rows, i) <==>
      if i == n then rows[n].refKey != "" && forall j :: 0 <= j < n ==> rows[..n][j].refKey != rows[n].refKey
      else IsFirstOfKey(rows[..n], i)
  {
  }

  lemma {:induction false} KeySeen(rows: seq<AnalyticKey>)
    requires rows != []
    ensures var n := |rows| - 1;
      IsFirstOfKey(rows, n) <==> rows[n].refKey != "" && rows[n].refKey !in AnalyticKeys(AnalyticsOf(rows[..n]))
  {
    var n := |rows| - 1;
    var out, key := AnalyticsOf(rows[..n]), rows[n].refKey;
    if key in AnalyticKeys(out) {
      var i :| 0 <= i < |out| && AnalyticKeys(out)[i] == key;
      var j :| 0 <= j < n && rows[..n][j] == out[i];
      assert rows[j].refKey == key;
    }
    assert forall j :: 0 <= j < n ==> rows[..n][j] == rows[j];
    hide AnalyticsOf;
  }

  /** The other records are rows as they came: the live, named warehouses, the cost rows with
      an analytic key, the positive prices of a product. */
  lemma {:induction false} RowsKept(ws: seq<Warehouse>, costs: seq<CostBalance>, prices: seq<SupplierPrice>)
    returns (at: seq<nat>, of: seq<nat>, on: seq<nat>)
    ensures Picks(ws, (w: Warehouse) => !w.deletionMark && !w.isFolder && w.refKey != "", at, Filter(ws, KeptWarehouse))
    ensures Picks(costs, (c: CostBalance) => c.analyticKey != "", of, Filter(costs, KeptCost))
    ensures Picks(prices, (s: SupplierPrice) => s.nomenclatureKey != "" && s.price > 0.0, on, Filter(prices, KeptSupplier))
  {
    at := FilterPicks(ws, KeptWarehouse);
    of := FilterPicks(costs, KeptCost);
    on := FilterPicks(prices, KeptSupplier);
    hide Filter;
  }

  // ---- the whole pull ----

  /** The data base behind the five OData resources, for one explicit period. */
  datatype OneC = OneC(warehouses: seq<Warehouse>, analytics: Source<AnalyticKey>, stocks: Source<RawStock>,
                       costs: Source<CostBalance>, suppliers: Source<SupplierPrice>)

  datatype Options = Options(chunkSize: nat, pageSizeFlat: nat)

  /** One execution of pull: the faults met and the interleaving of each parallel read. */
  datatype PullRun = PullRun(
    workers: nat, warehouseFaults: nat -> bool,
    analyticFaults: Faults, analyticRun: seq<State<AnalyticKey>>,
    costTrouble: Trouble, costRun: seq<State<CostBalance>>,
    stockTrouble: Trouble, stockRun: seq<State<RawStock>>,
    supplierFaults: Faults, supplierRun: seq<State<SupplierPrice>>)

  function Out<Row>(run: seq<State<Row>>): seq<Row> {
    if run == [] then [] else run[|run| - 1].out
  }

  function AnalyticKeys(analytics: seq<AnalyticKey>): seq<string> {
    Map(analytics, (a: AnalyticKey) => a.refKey)
  }

  function PulledAnalytics(run: PullRun): seq<AnalyticKey> {
    AnalyticsOf(Out(run.analyticRun))
  }

  /** What pull returns after this execution; without analytic keys the cost register is
      not asked at all. */
  function Pulled(data: OneC, o: Options, run: PullRun): PullResult {
    PullResult(
      WarehousesFrom(data.warehouses, o.pageSizeFlat, run.warehouseFaults, 0),
      PulledAnalytics(run),
      StocksOf(Out(run.stockRun)),
      if PulledAnalytics(run) == [] then [] else Filter(Out(run.costRun), KeptCost),
      Filter(Out(run.supplierRun), KeptSupplier))
  }

  ghost predicate CompleteFlat<Row(!new)>(src: Source<Row>, keys: seq<string>, o: Options, workers: nat,
                                          faults: Faults, run: seq<State<Row>>)
  {
    && |faults| == |Chunks(keys, ChunkSize(o.chunkSize))|
    && IsRun(FlatJob(src, keys, o.chunkSize, o.pageSizeFlat, faults), workers, run)
    && Finished(run[|run| - 1]) && !run[|run| - 1].stop
    && AllPagesRead(src, Chunks(keys, ChunkSize(o.chunkSize)), o.pageSizeFlat, faults)
  }

  ghost predicate CompleteBalance<Row(!new)>(src: Source<Row>, keys: seq<string>, workers: nat,
                                             trouble: Trouble, run: seq<State<Row>>)
  {
    && |trouble| == |Chunks(keys, VB_CHUNK)|
    && IsRun(BalanceJob(src, keys, trouble), workers, run)
    && Finished(run[|run| - 1]) && !run[|run| - 1].stop
    && AllLossless(src, Chunks(keys, VB_CHUNK), trouble)
  }

  /** A pull that was not stopped and lost no row to a fault or to the row limit. */
  ghost predicate CompletePull(data: OneC, productKeys: seq<string>, o: Options, run: PullRun) {
    && NoPageLost(data.warehouses, o.pageSizeFlat, run.warehouseFaults, 0)
    && CompleteFlat(data.analytics, productKeys, o, run.workers, run.analyticFaults, run.analyticRun)
    && (PulledAnalytics(run) != [] ==>
          CompleteBalance(data.costs, AnalyticKeys(PulledAnalytics(run)), run.workers, run.costTrouble, run.costRun))
    && CompleteBalance(data.stocks, productKeys, run.workers, run.stockTrouble, run.stockRun)
    && CompleteFlat(data.suppliers, productKeys, o, run.workers, run.supplierFaults, run.supplierRun)
  }

  /** In 1C an analytic key belongs to one product. */
  ghost predicate OneProductPerAnalytic(rows: seq<AnalyticKey>) {
    forall a, b :: a in rows && b in rows && a.refKey == b.refKey ==> a == b
  }

  lemma {:induction false} AnalyticsPermutation(xs: seq<AnalyticKey>, ys: seq<AnalyticKey>)
    requires multiset(xs) == multiset(ys) && OneProductPerAnalytic(xs)
    ensures multiset(AnalyticsOf(xs)) == multiset(AnalyticsOf(ys))
  {
    PermutationSize(xs, ys);
    forall a ensures a in AnalyticsOf(xs) <==> a in AnalyticsOf(ys) {
      AnalyticsMember(xs, a);
      AnalyticsMember(ys, a);
    }
    AnalyticsNoDup(xs);
    AnalyticsNoDup(ys);
    NoDupSameElements(AnalyticsOf(xs), AnalyticsOf(ys));
  }

  lemma {:induction false} AnalyticsMember(rows: seq<AnalyticKey>, a: AnalyticKey)
    requires OneProductPerAnalytic(rows)
    ensures a in AnalyticsOf(rows) <==> a in rows && a.refKey != ""
  {
    var out := AnalyticsOf(rows);
    if a in rows && a.refKey != "" {
      var refs := AnalyticKeys(out);
      assert a.refKey in refs;
      var i :| 0 <= i < |refs| && refs[i] == a.refKey;
      assert out[i] in rows && out[i].refKey == a.refKey;
    }
  }

  lemma {:induction false} AnalyticsNoDup(rows: seq<AnalyticKey>)
    ensures NoDup(AnalyticsOf(rows))
  {
    var out := AnalyticsOf(rows);
    var refs := AnalyticKeys(out);
    forall i, j | 0 <= i < j < |out| ensures out[i] != out[j] {
      assert refs[i] != refs[j];
    }
  }

  /** Two pulls of the same data, under any two schedules, fetch the same records up to
      order. */
  ghost predicate SameRecords(p: PullResult, q: PullResult) {
    && p.warehouses == q.warehouses
    && multiset(p.analytics) == multiset(q.analytics)
    && multiset(p.stocks) == multiset(q.stocks)
    && multiset(p.costs) == multiset(q.costs)
    && multiset(p.suppliers) == multiset(q.suppliers)
  }

  lemma {:induction false} CompleteFlatRows<Row(!new)>(src: Source<Row>, keys: seq<string>, o: Options, workers: nat,
                                    faults: Faults, run: seq<State<Row>>)
    requires CompleteFlat(src, keys, o, workers, faults, run)
    ensures multiset(Out(run)) == multiset(RowsOf(src, keys))
  {
    FlatReadExact(src, keys, o.chunkSize, o.pageSizeFlat, faults, workers, run);
  }

  lemma {:induction false} CompleteBalanceRows<Row(!new)>(src: Source<Row>, keys: seq<string>, workers: nat,
                                       trouble: Trouble, run: seq<State<Row>>)
    requires CompleteBalance(src, keys, workers, trouble, run)
    ensures multiset(Out(run)) == multiset(RowsOf(src, keys))
  {
    BalanceReadExact(src, keys, trouble, workers, run);
  }

  /** The product keys come out of a table in any order. */
  lemma {:induction false} PullsAgree(data: OneC, keys1: seq<string>, keys2: seq<string>, o: Options, run1: PullRun, run2: PullRun)
    requires multiset(keys1) == multiset(keys2)
    requires CompletePull(data, keys1, o, run1) && CompletePull(data, keys2, o, run2)
    requires OneProductPerAnalytic(RowsOf(data.analytics, keys1))
    ensures SameRecords(Pulled(data, o, run1), Pulled(data, o, run2))
  {
    WholeCatalogueRead(data.warehouses, o.pageSizeFlat, run1.warehouseFaults);
    WholeCatalogueRead(data.warehouses, o.pageSizeFlat, run2.warehouseFaults);
    AnalyticRecordsAgree(data, keys1, keys2, o, run1, run2);
    StockRecordsAgree(data, keys1, keys2, o, run1, run2);
    CostRecordsAgree(data, keys1, keys2, o, run1, run2);
    SupplierRecordsAgree(data, keys1, keys2, o, run1, run2);
    hide CompletePull, StocksOf, PulledAnalytics, WarehousesFrom, Filter, OneProductPerAnalytic;
  }

  /** A complete pull delivers everything: the live, named warehouses, a record for each stock
      row of the products, the cost rows of their analytic keys and the prices. */
  lemma {:induction false} CompletePullDelivers(data: OneC, keys: seq<string>, o: Options, run: PullRun)
    requires CompletePull(data, keys, o, run)
    ensures var p := Pulled(data, o, run);
      && p.warehouses == Filter(data.warehouses, KeptWarehouse)
      && (exists rows :: multiset(rows) == multiset(RowsOf(data.analytics, keys)) && p.analytics == AnalyticsOf(rows))
      && multiset(p.stocks) == multiset(StocksOf(RowsOf(data.stocks, keys)))
      && multiset(p.costs) == multiset(Filter(RowsOf(data.costs, AnalyticKeys(p.analytics)), KeptCost))
      && multiset(p.suppliers) == multiset(Filter(RowsOf(data.suppliers, keys), KeptSupplier))
  {
    WholeCatalogueRead(data.warehouses, o.pageSizeFlat, run.warehouseFaults);
    CompleteFlatRows(data.analytics, keys, o, run.workers, run.analyticFaults, run.analyticRun);
    CompleteBalanceRows(data.stocks, keys, run.workers, run.stockTrouble, run.stockRun);
    CompleteFlatRows(data.suppliers, keys, o, run.workers, run.supplierFaults, run.supplierRun);
    var stocks, prices := Out(run.stockRun), Out(run.supplierRun);
    FilterPermutation(stocks, RowsOf(data.stocks, keys), KeptStock);
    MapPermutation(Filter(stocks, KeptStock), Filter(RowsOf(data.stocks, keys), KeptStock), StockOf);
    FilterPermutation(prices, RowsOf(data.suppliers, keys), KeptSupplier);
    var analytics := PulledAnalytics(run);
    if analytics != [] {
      CompleteBalanceRows(data.costs, AnalyticKeys(analytics), run.workers, run.costTrouble, run.costRun);
      FilterPermutation(Out(run.costRun), RowsOf(data.costs, AnalyticKeys(analytics)), KeptCost);
    }
    assert AnalyticKeys([]) == [] && RowsOf(data.costs, []) == [] && Filter([], KeptCost) == [];
    hide CompletePull, AnalyticsOf, StocksOf, AnalyticKeys, WarehousesFrom, Filter;
    assert analytics == AnalyticsOf(Out(run.analyticRun));
  }

  lemma {:induction false} AnalyticRecordsAgree(data: OneC, keys1: seq<string>, keys2: seq<string>, o: Options, run1: PullRun, run2: PullRun)
    requires multiset(keys1) == multiset(keys2)
    requires CompletePull(data, keys1, o, run1) && CompletePull(data, keys2, o, run2)
    requires OneProductPerAnalytic(RowsOf(data.analytics, keys1))
    ensures multiset(PulledAnalytics(run1)) == multiset(PulledAnalytics(run2))
  {
    CompleteFlatRows(data.analytics, keys1, o, run1.workers, run1.analyticFaults, run1.analyticRun);
    CompleteFlatRows(data.analytics, keys2, o, run2.workers, run2.analyticFaults, run2.analyticRun);
    RowsOfPermutation(data.analytics, keys1, keys2);
    PermutationSize(Out(run1.analyticRun), RowsOf(data.analytics, keys1));
    AnalyticsPermutation(Out(run1.analyticRun), Out(run2.analyticRun));
  }

  lemma {:induction false} StockRecordsAgree(data: OneC, keys1: seq<string>, keys2: seq<string>, o: Options, run1: PullRun, run2: PullRun)
    requires multiset(keys1) == multiset(keys2)
    requires CompletePull(data, keys1, o, run1) && CompletePull(data, keys2, o, run2)
    ensures multiset(StocksOf(Out(run1.stockRun))) == multiset(StocksOf(Out(run2.stockRun)))
  {
    var rows1, rows2 := Out(run1.stockRun), Out(run2.stockRun);
    CompleteBalanceRows(data.stocks, keys1, run1.workers, run1.stockTrouble, run1.stockRun);
    CompleteBalanceRows(data.stocks, keys2, run2.workers, run2.stockTrouble, run2.stockRun);
    RowsOfPermutation(data.stocks, keys1, keys2);
    FilterPermutation(rows1, rows2, KeptStock);
    MapPermutation(Filter(rows1, KeptStock), Filter(rows2, KeptStock), StockOf);
  }

  lemma {:induction false} SupplierRecordsAgree(data: OneC, keys1: seq<string>, keys2: seq<string>, o: Options, run1: PullRun, run2: PullRun)
    requires multiset(keys1) == multiset(keys2)
    requires CompletePull(data, keys1, o, run1) && CompletePull(data, keys2, o, run2)
    ensures multiset(Pulled(data, o, run1).suppliers) == multiset(Pulled(data, o, run2).suppliers)
  {
    CompleteFlatRows(data.suppliers, keys1, o, run1.workers, run1.supplierFaults, run1.supplierRun);
    CompleteFlatRows(data.suppliers, keys2, o, run2.workers, run2.supplierFaults, run2.supplierRun);
    RowsOfPermutation(data.suppliers, keys1, keys2);
    FilterPermutation(Out(run1.supplierRun), Out(run2.supplierRun), KeptSupplier);
  }

  /** The cost register is asked for the analytic keys in the order the first read
      happened to deliver them; the rows fetched are nevertheless the same. */
  lemma {:induction false} CostRecordsAgree(data: OneC, keys1: seq<string>, keys2: seq<string>, o: Options, run1: PullRun, run2: PullRun)
    requires CompletePull(data, keys1, o, run1) && CompletePull(data, keys2, o, run2)
    requires multiset(PulledAnalytics(run1)) == multiset(PulledAnalytics(run2))
    ensures multiset(Pulled(data, o, run1).costs) == multiset(Pulled(data, o, run2).costs)
  {
    var a1, a2 := PulledAnalytics(run1), PulledAnalytics(run2);
    PermutationSize(a1, a2);
    if a1 != [] {
      var k1, k2 := AnalyticKeys(a1), AnalyticKeys(a2);
      MapPermutation(a1, a2, (a: AnalyticKey) => a.refKey);
      CompleteBalanceRows(data.costs, k1, run1.workers, run1.costTrouble, run1.costRun);
      CompleteBalanceRows(data.costs, k2, run2.workers, run2.costTrouble, run2.costRun);
      RowsOfPermutation(data.costs, k1, k2);
      FilterPermutation(Out(run1.costRun), Out(run2.costRun), KeptCost);
    }
  }
}
