/** What any sequence of imports keeps, and why two snapshots of equal content are
    interchangeable. */
module ImportFacts {
  import opened Sequences
  import opened Order
  import opened Snapshot
  import opened SnapshotFacts
  import opened Canonical
  import opened SnapshotImport

  // ---- invariants over every run of imports ----

  ghost function BatchRows(stocks: set<StockRow>, key: RowKey): set<StockRow> {
    set r | r in stocks && (r.tenant, r.batchId) == key
  }

  /** The foreign key and unique constraint of the stock table; every stock row belongs to
      a recorded snapshot, and a snapshot counts its rows correctly. */
  ghost predicate TablesOk(t: Tables) {
    && (forall r :: r in t.stocks ==> (r.tenant, r.warehouseId) in t.warehouses)
    && (forall r, q :: r in t.stocks && q in t.stocks && SameCell(r, q) ==> r == q)
    && (forall r :: r in t.stocks ==> (r.tenant, r.batchId) in t.snapshots)
    && (forall k :: k in t.snapshots ==> |BatchRows(t.stocks, k)| == t.snapshots[k].stocksCount)
  }

  lemma {:induction false} RowsCount(tenant: int, req: SnapshotRequest)
    requires DistinctCells(req.stocks)
    ensures |RowsOfStocks(tenant, req)| == |req.stocks|
  {
    var rows := Map(req.stocks, s => StockRowOf(tenant, req, s));
    assert NoDup(rows);
    NoDupSetSize(rows);
    assert (set r | r in rows) == RowsOfStocks(tenant, req) by {
      forall s | s in req.stocks ensures StockRowOf(tenant, req, s) in rows {
        var i :| 0 <= i < |req.stocks| && req.stocks[i] == s;
        assert rows[i] in rows;
      }
    }
  }

  lemma {:induction false} NewBatchRows(t: Tables, tenant: int, req: SnapshotRequest, k: RowKey)
    requires TablesOk(t) && (tenant, req.batchId) !in t.snapshots && DistinctCells(req.stocks)
    ensures BatchRows(t.stocks + RowsOfStocks(tenant, req), k)
         == if k == (tenant, req.batchId) then RowsOfStocks(tenant, req) else BatchRows(t.stocks, k)
    ensures |RowsOfStocks(tenant, req)| == |req.stocks|
  {
    RowsCount(tenant, req);
  }

  /** A later state of the tables: everything recorded or stocked is still there. */
  ghost predicate Extends(t: Tables, u: Tables) {
    && t.stocks <= u.stocks
    && (forall k :: k in t.snapshots ==> k in u.snapshots && u.snapshots[k] == t.snapshots[k])
    && (forall k :: k in t.warehouses ==> k in u.warehouses)
  }

  lemma {:induction false} CommitKeeps(t: Tables, tenant: int, req: SnapshotRequest, vt: TimeParser)
    requires TablesOk(t) && (tenant, req.batchId) !in t.snapshots && Storable(t, tenant, req, vt)
    ensures TablesOk(Stored(t, tenant, req)) && Extends(t, Stored(t, tenant, req))
  {
    StoredRowsOk(t, tenant, req, vt);
    StoredKeys(t, tenant, req, vt);
  }

  lemma {:induction false} StoredKeys(t: Tables, tenant: int, req: SnapshotRequest, vt: TimeParser)
    requires TablesOk(t) && (tenant, req.batchId) !in t.snapshots && DistinctCells(req.stocks)
    ensures var u := Stored(t, tenant, req);
      && Extends(t, u)
      && (forall r :: r in u.stocks ==> (r.tenant, r.batchId) in u.snapshots)
      && (forall k :: k in u.snapshots ==> |BatchRows(u.stocks, k)| == u.snapshots[k].stocksCount)
  {
    hide CanonicalTree;
    var u := Stored(t, tenant, req);
    WarehouseKeys(t.warehouses, tenant, req.warehouses);
    forall k | k in u.snapshots ensures |BatchRows(u.stocks, k)| == u.snapshots[k].stocksCount {
      NewBatchRows(t, tenant, req, k);
    }
  }

  /** One import, whatever its outcome: the invariants hold, nothing recorded or stocked
      disappears or changes, and anything but a commit leaves all tables as they were. */
  lemma {:induction false} ImportKeeps(t: Tables, tenant: int, req: SnapshotRequest, vt: TimeParser)
    requires TablesOk(t)
    ensures TablesOk(Import(t, tenant, req, vt).1)
    ensures Extends(t, Import(t, tenant, req, vt).1)
    ensures !Import(t, tenant, req, vt).0.Imported? ==> Import(t, tenant, req, vt).1 == t
  {
    hide Storable, Stored, CanonicalTree, TablesOk;
    if Import(t, tenant, req, vt).0.Imported? {
      CommitKeeps(t, tenant, req, vt);
    }
  }

  lemma {:induction false} StoredRowsOk(t: Tables, tenant: int, req: SnapshotRequest, vt: TimeParser)
    requires TablesOk(t) && Storable(t, tenant, req, vt)
    ensures var u := Stored(t, tenant, req);
      && (forall r :: r in u.stocks ==> (r.tenant, r.warehouseId) in u.warehouses)
      && (forall r, q :: r in u.stocks && q in u.stocks && SameCell(r, q) ==> r == q)
  {
    var u, added := Stored(t, tenant, req), RowsOfStocks(tenant, req);
    assert u.stocks == t.stocks + added && CellsFree(t.stocks, tenant, req) && DistinctCells(req.stocks);
    assert forall r, q :: r in t.stocks && q in t.stocks && SameCell(r, q) ==> r == q;
    StoredForeignKey(t, tenant, req, vt);
    hide *;
    forall r, q | r in u.stocks && q in u.stocks && SameCell(r, q) ensures r == q {
      if r in t.stocks && q !in t.stocks {
        NewCellsFree(t, tenant, req, q, r);
      } else if q in t.stocks && r !in t.stocks {
        NewCellsFree(t, tenant, req, r, q);
      } else if r !in t.stocks {
        NewCellsDistinct(tenant, req, r, q);
      }
    }
  }

  lemma {:induction false} StoredForeignKey(t: Tables, tenant: int, req: SnapshotRequest, vt: TimeParser)
    requires TablesOk(t) && Storable(t, tenant, req, vt)
    ensures forall r :: r in Stored(t, tenant, req).stocks ==> (r.tenant, r.warehouseId) in Stored(t, tenant, req).warehouses
  {
    hide CanonicalTree;
    WarehouseKeys(t.warehouses, tenant, req.warehouses);
  }

  lemma {:induction false} NewCellsDistinct(tenant: int, req: SnapshotRequest, r: StockRow, q: StockRow)
    requires DistinctCells(req.stocks) && r in RowsOfStocks(tenant, req) && q in RowsOfStocks(tenant, req) && SameCell(r, q)
    ensures r == q
  {
    var s :| s in req.stocks && r == StockRowOf(tenant, req, s);
    var p :| p in req.stocks && q == StockRowOf(tenant, req, p);
    SameCellSameStock(req.stocks, s, p);
  }

  lemma {:induction false} NewCellsFree(t: Tables, tenant: int, req: SnapshotRequest, r: StockRow, q: StockRow)
    requires CellsFree(t.stocks, tenant, req) && r in RowsOfStocks(tenant, req) && q in t.stocks
    ensures !SameCell(q, r) && !SameCell(r, q)
  {
  }

  lemma {:induction false} SameCellSameStock(stocks: seq<StockInput>, s: StockInput, p: StockInput)
    requires DistinctCells(stocks) && s in stocks && p in stocks
    requires s.sku1c == p.sku1c && s.warehouseId == p.warehouseId
    ensures s == p
  {
    var i :| 0 <= i < |stocks| && stocks[i] == s;
    var j :| 0 <= j < |stocks| && stocks[j] == p;
    assert i == j;
  }

  datatype Request = Request(tenant: int, body: SnapshotRequest)

  /** The tables after importing the requests one after the other. */
  ghost function ImportAll(t: Tables, requests: seq<Request>, vt: TimeParser): Tables
    decreases |requests|
  {
    if requests == [] then t
    else ImportAll(Import(t, requests[0].tenant, requests[0].body, vt).1, requests[1..], vt)
  }

  /** Over every sequence of imports: the constraints hold, a batch_id stays bound to its
      first payload, and stock rows stay as they were written. */
  lemma {:induction false} ImportAllKeeps(t: Tables, requests: seq<Request>, vt: TimeParser)
    requires TablesOk(t)
    ensures TablesOk(ImportAll(t, requests, vt)) && Extends(t, ImportAll(t, requests, vt))
    decreases |requests|
  {
    hide Import, TablesOk;
    if requests != [] {
      ImportKeeps(t, requests[0].tenant, requests[0].body, vt);
      ImportAllKeeps(Import(t, requests[0].tenant, requests[0].body, vt).1, requests[1..], vt);
    }
  }

  const NoTables := Tables(map[], {}, map[], map[], map[])

  /** Whatever was imported since the tables were created, in whatever order and with
      whatever failures. */
  lemma {:induction false} ConstraintsAlwaysHold(requests: seq<Request>, vt: TimeParser)
    ensures TablesOk(ImportAll(NoTables, requests, vt))
  {
    assert TablesOk(NoTables);
    hide *;
    ImportAllKeeps(NoTables, requests, vt);
  }

  /** A committed batch can be sent again at any later time: the same body is a duplicate,
      another body is refused, and nothing changes either way. */
  lemma {:induction false} ResendLater(t: Tables, tenant: int, req: SnapshotRequest, between: seq<Request>, again: SnapshotRequest, vt: TimeParser)
    requires TablesOk(t) && Import(t, tenant, req, vt).0.Imported?
    requires again.batchId == req.batchId && again.measuredAt != "" && (again.stocks != [] || again.costs != [])
    ensures var u := ImportAll(Import(t, tenant, req, vt).1, between, vt);
      Import(u, tenant, again, vt)
        == (if CanonicalTree(again) == CanonicalTree(req) then Duplicate(req.batchId) else Rejected(BatchReused), u)
  {
    hide Storable, CanonicalTree, TablesOk;
    ImportKeeps(t, tenant, req, vt);
    ImportAllKeeps(Import(t, tenant, req, vt).1, between, vt);
  }

  /** Stock rows are never deleted, so after a commit every later batch that has one of its
      cells fails as a whole. */
  lemma {:induction false} OverlappingBatchFails(t: Tables, tenant: int, req: SnapshotRequest, between: seq<Request>, later: SnapshotRequest, vt: TimeParser,
                              s: StockInput, p: StockInput)
    requires TablesOk(t) && Import(t, tenant, req, vt).0.Imported?
    requires s in req.stocks && p in later.stocks && s.sku1c == p.sku1c && s.warehouseId == p.warehouseId
    requires (tenant, later.batchId) !in ImportAll(Import(t, tenant, req, vt).1, between, vt).snapshots
    ensures var u := ImportAll(Import(t, tenant, req, vt).1, between, vt);
      Import(u, tenant, later, vt).0.Rejected? && Import(u, tenant, later, vt).1 == u
  {
    hide Import, TablesOk;
    var u := ImportAll(Import(t, tenant, req, vt).1, between, vt);
    CommittedRowStays(t, tenant, req, between, vt, s);
    assert SameCell(StockRowOf(tenant, req, s), StockRowOf(tenant, later, p));
    CellTaken(u, tenant, later, vt, StockRowOf(tenant, req, s), p);
  }

  lemma {:induction false} CommittedRowStays(t: Tables, tenant: int, req: SnapshotRequest, between: seq<Request>, vt: TimeParser, s: StockInput)
    requires TablesOk(t) && Import(t, tenant, req, vt).0.Imported? && s in req.stocks
    ensures StockRowOf(tenant, req, s) in ImportAll(Import(t, tenant, req, vt).1, between, vt).stocks
  {
    hide Storable, CanonicalTree, TablesOk;
    ImportKeeps(t, tenant, req, vt);
    ImportAllKeeps(Import(t, tenant, req, vt).1, between, vt);
    assert StockRowOf(tenant, req, s) in RowsOfStocks(tenant, req);
  }

  lemma {:induction false} CellTaken(u: Tables, tenant: int, later: SnapshotRequest, vt: TimeParser, r: StockRow, p: StockInput)
    requires r in u.stocks && p in later.stocks && SameCell(r, StockRowOf(tenant, later, p))
    requires (tenant, later.batchId) !in u.snapshots
    ensures Import(u, tenant, later, vt).0.Rejected? && Import(u, tenant, later, vt).1 == u
  {
    assert !CellsFree(u.stocks, tenant, later);
  }

  // ---- equal content, equal effect ----

  lemma {:induction false} NormMember<T(!new)>(xs: seq<T>, ys: seq<T>, norm: T -> T, x: T) returns (y: T)
    requires multiset(Map(xs, norm)) == multiset(Map(ys, norm)) && x in xs
    ensures y in ys && norm(y) == norm(x)
  {
    PermutationSize(Map(xs, norm), Map(ys, norm));
    var i :| 0 <= i < |xs| && xs[i] == x;
    assert Map(xs, norm)[i] in Map(xs, norm);
    var j :| 0 <= j < |ys| && Map(ys, norm)[j] == norm(x);
    y := ys[j];
  }

  lemma {:induction false} SameStockRows(tenant: int, a: SnapshotRequest, b: SnapshotRequest)
    requires SameContent(a, b)
    ensures RowsOfStocks(tenant, a) <= RowsOfStocks(tenant, b)
  {
    forall r | r in RowsOfStocks(tenant, a) ensures r in RowsOfStocks(tenant, b) {
      var s :| s in a.stocks && r == StockRowOf(tenant, a, s);
      var p := NormMember(a.stocks, b.stocks, NormStock, s);
      assert NormStock(p).sku1c == p.sku1c && NormStock(s).sku1c == s.sku1c;
      assert StockRowOf(tenant, b, p) == r;
    }
  }

  lemma {:induction false} DistinctImpliesCells(req: SnapshotRequest)
    requires DistinctLists(req)
    ensures DistinctCells(req.stocks) && DistinctWarehouseIds(req.warehouses)
  {
    forall i, j | 0 <= i < j < |req.stocks|
      ensures !(req.stocks[i].sku1c == req.stocks[j].sku1c && req.stocks[i].warehouseId == req.stocks[j].warehouseId)
    {
      assert StockSortKey(req.stocks[i]) != StockSortKey(req.stocks[j]);
    }
    forall i, j | 0 <= i < j < |req.warehouses| ensures req.warehouses[i].warehouseId != req.warehouses[j].warehouseId {
      assert WarehouseSortKey(req.warehouses[i]) != WarehouseSortKey(req.warehouses[j]);
    }
  }

  lemma {:induction false} SameStocksStorable(t: Tables, tenant: int, a: SnapshotRequest, b: SnapshotRequest, s: StockInput)
    requires SameContent(a, b) && s in b.stocks
    requires forall p :: p in a.stocks ==> StockColumnsFit(p) && WarehouseKnown(t.warehouses, tenant, a.warehouses, p.warehouseId)
    requires CellsFree(t.stocks, tenant, a)
    ensures StockStorable(t, tenant, b, s)
  {
    var p := NormMember(b.stocks, a.stocks, NormStock, s);
    PermutationSize(a.warehouses, b.warehouses);
    assert NormStock(p).warehouseId == p.warehouseId && NormStock(s).warehouseId == s.warehouseId;
    assert StockRowOf(tenant, a, p) == StockRowOf(tenant, b, s);
    assert WarehouseIds(a.warehouses) == WarehouseIds(b.warehouses);
  }

  lemma {:induction false} SameCostStorable(a: SnapshotRequest, b: SnapshotRequest, vt: TimeParser, c: CostInput)
    requires SameContent(a, b) && c in b.costs
    requires forall d :: d in a.costs ==> CostStorable(d, vt)
    ensures CostStorable(c, vt)
  {
    var d := NormMember(b.costs, a.costs, NormCost, c);
    NormCostFields(c, d);
  }

  lemma {:induction false} NormCostFields(c: CostInput, d: CostInput)
    requires NormCost(c) == NormCost(d)
    ensures c.sku1c == d.sku1c && c.batchAvgCost == d.batchAvgCost && c.purchaseCost == d.purchaseCost && c.dealerCost == d.dealerCost
    ensures ValueOr(c.purchaseSource) == ValueOr(d.purchaseSource)
    ensures ValueOr(c.purchaseSourceAt) == ValueOr(d.purchaseSourceAt)
  {
    assert NormCost(c).sku1c == c.sku1c && NormCost(d).sku1c == d.sku1c;
    assert NonEmpty(c.purchaseSource) == NonEmpty(d.purchaseSource);
    assert NonEmpty(c.purchaseSourceAt) == NonEmpty(d.purchaseSourceAt);
  }

  lemma {:induction false} SameStorable(t: Tables, tenant: int, a: SnapshotRequest, b: SnapshotRequest, vt: TimeParser)
    requires SameContent(a, b) && DistinctLists(b) && Storable(t, tenant, a, vt)
    ensures Storable(t, tenant, b, vt)
  {
    SameHead(a, b);
    DistinctImpliesCells(b);
    SameWarehousesFit(a, b);
    assert vt(a.measuredAt) && CellsFree(t.stocks, tenant, a);
    assert forall w :: w in a.warehouses ==> WarehouseColumnsFit(w);
    assert forall s :: s in a.stocks ==> StockColumnsFit(s) && WarehouseKnown(t.warehouses, tenant, a.warehouses, s.warehouseId);
    assert forall c :: c in a.costs ==> CostStorable(c, vt);
    hide *;
    forall s | s in b.stocks ensures StockStorable(t, tenant, b, s) {
      SameStocksStorable(t, tenant, a, b, s);
    }
    forall c | c in b.costs ensures CostStorable(c, vt) {
      SameCostStorable(a, b, vt, c);
    }
    StorableParts(t, tenant, b, vt);
  }

  lemma {:induction false} SameWarehousesFit(a: SnapshotRequest, b: SnapshotRequest)
    requires SameContent(a, b)
    ensures (forall w :: w in a.warehouses ==> WarehouseColumnsFit(w)) ==> forall w :: w in b.warehouses ==> WarehouseColumnsFit(w)
  {
    PermutationSize(a.warehouses, b.warehouses);
  }

  lemma {:induction false} StorableParts(t: Tables, tenant: int, b: SnapshotRequest, vt: TimeParser)
    requires vt(b.measuredAt) && DistinctWarehouseIds(b.warehouses) && DistinctCells(b.stocks)
    requires forall w :: w in b.warehouses ==> WarehouseColumnsFit(w)
    requires forall s :: s in b.stocks ==> StockStorable(t, tenant, b, s)
    requires forall c :: c in b.costs ==> CostStorable(c, vt)
    ensures Storable(t, tenant, b, vt)
  {
    hide StockColumnsFit, WarehouseKnown, SameCell, CostStorable, WarehouseColumnsFit, DistinctWarehouseIds, DistinctCells;
  }

  /** The conditions on one stock row. */
  ghost predicate StockStorable(t: Tables, tenant: int, req: SnapshotRequest, s: StockInput) {
    && StockColumnsFit(s) && WarehouseKnown(t.warehouses, tenant, req.warehouses, s.warehouseId)
    && forall r :: r in t.stocks ==> !SameCell(r, StockRowOf(tenant, req, s))
  }

  // ---- the cost and warehouse upserts do not depend on the order ----

  lemma {:induction false} EntryOfNorm(tenant: int, c: CostInput)
    ensures HasAverage(NormCost(c)) == HasAverage(c) && HasPurchase(NormCost(c)) == HasPurchase(c)
    ensures BatchEntry(tenant, NormCost(c)) == BatchEntry(tenant, c)
    ensures SupplierEntry(tenant, NormCost(c)) == SupplierEntry(tenant, c)
  {
  }

  lemma {:induction false} EntriesOfNorm(tenant: int, costs: seq<CostInput>)
    ensures BatchEntries(tenant, Map(costs, NormCost)) == BatchEntries(tenant, costs)
    ensures SupplierEntries(tenant, Map(costs, NormCost)) == SupplierEntries(tenant, costs)
  {
    forall c ensures EntryKept(tenant, c) { EntryOfNorm(tenant, c); }
    MapFilterSame(costs, NormCost, HasAverage, c => BatchEntry(tenant, c));
    MapFilterSame(costs, NormCost, HasPurchase, c => SupplierEntry(tenant, c));
  }

  predicate EntryKept(tenant: int, c: CostInput) {
    && HasAverage(NormCost(c)) == HasAverage(c) && HasPurchase(NormCost(c)) == HasPurchase(c)
    && BatchEntry(tenant, NormCost(c)) == BatchEntry(tenant, c)
    && SupplierEntry(tenant, NormCost(c)) == SupplierEntry(tenant, c)
  }

  lemma {:induction false} EntriesPermutation(tenant: int, a: seq<CostInput>, b: seq<CostInput>)
    requires multiset(Map(a, NormCost)) == multiset(Map(b, NormCost))
    ensures multiset(BatchEntries(tenant, a)) == multiset(BatchEntries(tenant, b))
    ensures multiset(SupplierEntries(tenant, a)) == multiset(SupplierEntries(tenant, b))
  {
    var x, y := Map(a, NormCost), Map(b, NormCost);
    FilterPermutation(x, y, HasAverage);
    FilterPermutation(x, y, HasPurchase);
    MapPermutation(Filter(x, HasAverage), Filter(y, HasAverage), c => BatchEntry(tenant, c));
    MapPermutation(Filter(x, HasPurchase), Filter(y, HasPurchase), c => SupplierEntry(tenant, c));
    EntriesOfNorm(tenant, a);
    EntriesOfNorm(tenant, b);
  }

  lemma {:induction false} EntriesDistinct(tenant: int, costs: seq<CostInput>)
    requires DistinctKeys(costs, CostSortKey)
    ensures DistinctFirst(BatchEntries(tenant, costs)) && DistinctFirst(SupplierEntries(tenant, costs))
  {
    FilterKeepsOrder(costs, HasAverage, CostSortKey);
    FilterKeepsOrder(costs, HasPurchase, CostSortKey);
    DistinctSkus(Filter(costs, HasAverage));
    DistinctSkus(Filter(costs, HasPurchase));
  }

  lemma {:induction false} DistinctSkus(costs: seq<CostInput>)
    requires DistinctKeys(costs, CostSortKey)
    ensures forall i, j :: 0 <= i < j < |costs| ==> costs[i].sku1c != costs[j].sku1c
  {
    forall i, j | 0 <= i < j < |costs| ensures costs[i].sku1c != costs[j].sku1c {
      assert CostSortKey(costs[i]) != CostSortKey(costs[j]);
    }
  }

  lemma {:induction false} SameUpserts(t: Tables, tenant: int, a: SnapshotRequest, b: SnapshotRequest)
    requires SameContent(a, b) && DistinctLists(a) && DistinctLists(b)
    ensures BatchAfter(WithoutTenant(t.costBatch, tenant), tenant, a.costs) == BatchAfter(WithoutTenant(t.costBatch, tenant), tenant, b.costs)
    ensures SupplierAfter(WithoutTenant(t.costSupplier, tenant), tenant, a.costs)
         == SupplierAfter(WithoutTenant(t.costSupplier, tenant), tenant, b.costs)
    ensures UpsertAll(t.warehouses, WarehouseEntries(tenant, a.warehouses))
         == UpsertAll(t.warehouses, WarehouseEntries(tenant, b.warehouses))
  {
    EntriesPermutation(tenant, a.costs, b.costs);
    EntriesDistinct(tenant, a.costs);
    EntriesDistinct(tenant, b.costs);
    UpsertPermutation(WithoutTenant(t.costBatch, tenant), BatchEntries(tenant, a.costs), BatchEntries(tenant, b.costs));
    UpsertPermutation(WithoutTenant(t.costSupplier, tenant), SupplierEntries(tenant, a.costs), SupplierEntries(tenant, b.costs));
    DistinctImpliesCells(a);
    DistinctImpliesCells(b);
    MapPermutation(a.warehouses, b.warehouses, w => WarehouseEntry(tenant, w));
    UpsertPermutation(t.warehouses, WarehouseEntries(tenant, a.warehouses), WarehouseEntries(tenant, b.warehouses));
  }

  /** What the tables after a commit depend on. */
  lemma {:induction false} StoredDependsOn(t: Tables, tenant: int, a: SnapshotRequest, b: SnapshotRequest)
    requires a.batchId == b.batchId && a.measuredAt == b.measuredAt && CanonicalTree(a) == CanonicalTree(b)
    requires |a.stocks| == |b.stocks| && |a.costs| == |b.costs| && RowsOfStocks(tenant, a) == RowsOfStocks(tenant, b)
    requires BatchAfter(WithoutTenant(t.costBatch, tenant), tenant, a.costs) == BatchAfter(WithoutTenant(t.costBatch, tenant), tenant, b.costs)
    requires SupplierAfter(WithoutTenant(t.costSupplier, tenant), tenant, a.costs)
          == SupplierAfter(WithoutTenant(t.costSupplier, tenant), tenant, b.costs)
    requires UpsertAll(t.warehouses, WarehouseEntries(tenant, a.warehouses))
          == UpsertAll(t.warehouses, WarehouseEntries(tenant, b.warehouses))
    ensures Stored(t, tenant, a) == Stored(t, tenant, b)
  {
    hide CanonicalTree, RowsOfStocks, BatchAfter, SupplierAfter, WarehouseEntries, UpsertAll, WithoutTenant;
  }

  lemma {:induction false} SameStored(t: Tables, tenant: int, a: SnapshotRequest, b: SnapshotRequest)
    requires SameContent(a, b) && DistinctLists(a) && DistinctLists(b)
    ensures Stored(t, tenant, a) == Stored(t, tenant, b)
  {
    hide *;
    SameTree(a, b);
    SameHead(a, b);
    SameEmptiness(a, b);
    SameContentSymmetric(a, b);
    SameStockRows(tenant, a, b);
    SameStockRows(tenant, b, a);
    SameUpserts(t, tenant, a, b);
    StoredDependsOn(t, tenant, a, b);
  }

  lemma {:induction false} SameHead(a: SnapshotRequest, b: SnapshotRequest)
    requires SameContent(a, b)
    ensures a.batchId == b.batchId && a.measuredAt == b.measuredAt && a.mode == b.mode
  {
  }

  lemma {:induction false} SameEmptiness(a: SnapshotRequest, b: SnapshotRequest)
    requires SameContent(a, b)
    ensures |a.stocks| == |b.stocks| && |a.costs| == |b.costs|
  {
    PermutationSize(Map(a.stocks, NormStock), Map(b.stocks, NormStock));
    PermutationSize(Map(a.costs, NormCost), Map(b.costs, NormCost));
  }

  /** Importing either of two snapshots of equal content gives the same answer and the same
      tables, whatever was in the tables before. */
  lemma {:induction false} SameContentSameImport(t: Tables, tenant: int, a: SnapshotRequest, b: SnapshotRequest, vt: TimeParser)
    requires SameContent(a, b) && DistinctLists(a) && DistinctLists(b)
    ensures Import(t, tenant, a, vt) == Import(t, tenant, b, vt)
  {
    SameVerdict(t, tenant, a, b, vt);
    SameStored(t, tenant, a, b);
    hide Verdict, Stored;
  }

  lemma {:induction false} SameTree(a: SnapshotRequest, b: SnapshotRequest)
    requires SameContent(a, b) && DistinctLists(a) && DistinctLists(b)
    ensures CanonicalTree(a) == CanonicalTree(b)
  {
    CanonicalForm(a, b);
  }

  lemma {:induction false} SameVerdict(t: Tables, tenant: int, a: SnapshotRequest, b: SnapshotRequest, vt: TimeParser)
    requires SameContent(a, b) && DistinctLists(a) && DistinctLists(b)
    ensures Verdict(t, tenant, a, vt) == Verdict(t, tenant, b, vt)
  {
    SameHead(a, b);
    SameEmptiness(a, b);
    SameTree(a, b);
    SameContentSymmetric(a, b);
    hide *;
    if Storable(t, tenant, a, vt) { SameStorable(t, tenant, a, b, vt); }
    if Storable(t, tenant, b, vt) { SameStorable(t, tenant, b, a, vt); }
    VerdictDependsOn(t, tenant, a, b, vt);
  }

  lemma {:induction false} VerdictDependsOn(t: Tables, tenant: int, a: SnapshotRequest, b: SnapshotRequest, vt: TimeParser)
    requires |a.stocks| == |b.stocks| && |a.costs| == |b.costs| && a.batchId == b.batchId && a.measuredAt == b.measuredAt
    requires CanonicalTree(a) == CanonicalTree(b)
    requires Storable(t, tenant, a, vt) == Storable(t, tenant, b, vt)
    ensures Verdict(t, tenant, a, vt) == Verdict(t, tenant, b, vt)
  {
    hide SamePayload, Storable, CanonicalTree;
  }

  lemma {:induction false} SameContentSymmetric(a: SnapshotRequest, b: SnapshotRequest)
    requires SameContent(a, b)
    ensures SameContent(b, a)
  {
  }

  // ---- an input that meets OverlappingBatchFails ----

  const OneWarehouse := WarehouseInput("w", "W")
  const OneStock := StockInput("s", None, "w", None, 1, 0)

  function OneCell(batchId: string): SnapshotRequest {
    SnapshotRequest(batchId, "2024-01-01T00:00:00Z", "FULL", [OneStock], [OneWarehouse], [])
  }

  /** Two daily batches with the same product in the same warehouse: the first is imported
      into empty tables, the second is refused. */
  lemma {:induction false} SecondDayFails(vt: TimeParser)
    requires vt("2024-01-01T00:00:00Z")
    ensures var (r, u) := Import(NoTables, 1, OneCell("day 1"), vt);
      r == Imported("day 1", 1, 0) && Import(u, 1, OneCell("day 2"), vt) == (Rejected(DbError), u)
  {
    FirstDayStorable(vt);
    hide CanonicalTree, Storable;
    var u := Stored(NoTables, 1, OneCell("day 1"));
    assert Import(NoTables, 1, OneCell("day 1"), vt) == (Imported("day 1", 1, 0), u);
    assert (1, "day 2") !in u.snapshots by { assert "day 1"[4] != "day 2"[4]; }
    SecondDayNotStorable(u, vt);
  }

  lemma {:induction false} FirstDayStorable(vt: TimeParser)
    requires vt("2024-01-01T00:00:00Z")
    ensures Storable(NoTables, 1, OneCell("day 1"), vt)
  {
    assert OneWarehouse in OneCell("day 1").warehouses;
    assert "w" in WarehouseIds(OneCell("day 1").warehouses);
  }

  lemma {:induction false} SecondDayNotStorable(u: Tables, vt: TimeParser)
    requires u == Stored(NoTables, 1, OneCell("day 1"))
    ensures !Storable(u, 1, OneCell("day 2"), vt)
  {
    hide CanonicalTree;
    assert OneStock in OneCell("day 1").stocks && OneStock in OneCell("day 2").stocks;
    assert StockRowOf(1, OneCell("day 1"), OneStock) in u.stocks;
    assert SameCell(StockRowOf(1, OneCell("day 1"), OneStock), StockRowOf(1, OneCell("day 2"), OneStock));
  }
}
