/** What an import answers and what a commit leaves in the five tables, said of the request
    and the tables before it, column by column. */
module ImportedTables {
  import opened Sequences
  import opened Snapshot
  import opened Canonical
  import opened SnapshotImport

  // ---- which requests are committed ----

  /** The row limits of the tables: VARCHAR lengths, INT columns, timestamps. */
  ghost predicate FitsColumns(req: SnapshotRequest, vt: TimeParser) {
    && vt(req.measuredAt)
    && (forall i :: 0 <= i < |req.warehouses| ==> |req.warehouses[i].warehouseId| <= 64 && |req.warehouses[i].warehouseName| <= 255)
    && (forall i :: 0 <= i < |req.stocks| ==> StockFits(req.stocks[i]))
    && (forall i :: 0 <= i < |req.costs| ==> CostFits(req.costs[i], vt))
  }

  ghost predicate StockFits(s: StockInput) {
    && |s.sku1c| <= 128 && |s.warehouseId| <= 64 && (s.offerId.Some? ==> |s.offerId.value| <= 128)
    && -2147483648 <= s.available <= 2147483647 && -2147483648 <= s.reserved <= 2147483647
  }

  ghost predicate CostFits(c: CostInput, vt: TimeParser) {
    && (c.purchaseCost.Some? || (c.batchAvgCost.Some? && c.batchAvgCost.value > 0.0) ==> |c.sku1c| <= 128)
    && (c.purchaseCost.Some? && c.purchaseSource.Some? ==> |c.purchaseSource.value| <= 32)
    && (c.purchaseCost.Some? ==> vt(if c.purchaseSourceAt.Some? then c.purchaseSourceAt.value else ""))
  }

  /** The keys: no warehouse and no cell twice in the request, no cell that is stocked already,
      and no stock row of a warehouse that is neither on record nor in the request. */
  ghost predicate FitsKeys(t: Tables, tenant: int, req: SnapshotRequest) {
    && (forall i, j :: 0 <= i < j < |req.warehouses| ==> req.warehouses[i].warehouseId != req.warehouses[j].warehouseId)
    && (forall i, j :: 0 <= i < j < |req.stocks| ==>
          req.stocks[i].sku1c != req.stocks[j].sku1c || req.stocks[i].warehouseId != req.stocks[j].warehouseId)
    && (forall i :: 0 <= i < |req.stocks| ==> CellFits(t, tenant, req, req.stocks[i]))
  }

  ghost predicate CellFits(t: Tables, tenant: int, req: SnapshotRequest, s: StockInput) {
    && (forall r :: r in t.stocks ==> r.tenant != tenant || r.sku1c != s.sku1c || r.warehouseId != s.warehouseId)
    && ((tenant, s.warehouseId) in t.warehouses || exists w :: w in req.warehouses && w.warehouseId == s.warehouseId)
  }

  lemma {:induction false} ColumnsFit(req: SnapshotRequest, vt: TimeParser)
    ensures FitsColumns(req, vt) <==>
      && vt(req.measuredAt) && (forall w :: w in req.warehouses ==> WarehouseColumnsFit(w))
      && (forall s :: s in req.stocks ==> StockColumnsFit(s)) && (forall c :: c in req.costs ==> CostStorable(c, vt))
  {
    forall s ensures StockFits(s) <==> StockColumnsFit(s) {}
    forall c ensures CostFits(c, vt) <==> CostStorable(c, vt) { SameCostLimits(c, vt); }
    hide StockFits, CostFits, StockColumnsFit, CostStorable;
    assert forall i :: 0 <= i < |req.warehouses| ==> req.warehouses[i] in req.warehouses;
    assert forall i :: 0 <= i < |req.stocks| ==> req.stocks[i] in req.stocks;
    assert forall i :: 0 <= i < |req.costs| ==> req.costs[i] in req.costs;
  }

  lemma {:induction false} SameCostLimits(c: CostInput, vt: TimeParser)
    ensures CostFits(c, vt) <==> CostStorable(c, vt)
  {
  }

  lemma {:induction false} KeysFit(t: Tables, tenant: int, req: SnapshotRequest)
    ensures FitsKeys(t, tenant, req) <==>
      && DistinctWarehouseIds(req.warehouses) && DistinctCells(req.stocks) && CellsFree(t.stocks, tenant, req)
      && (forall s :: s in req.stocks ==> WarehouseKnown(t.warehouses, tenant, req.warehouses, s.warehouseId))
  {
    forall s ensures CellFits(t, tenant, req, s) <==>
      (forall r :: r in t.stocks ==> !SameCell(r, StockRowOf(tenant, req, s))) && WarehouseKnown(t.warehouses, tenant, req.warehouses, s.warehouseId)
    {
      CellFitsIff(t, tenant, req, s);
    }
    hide CellFits, SameCell, StockRowOf, WarehouseKnown;
    assert forall i :: 0 <= i < |req.stocks| ==> req.stocks[i] in req.stocks;
  }

  lemma {:induction false} CellFitsIff(t: Tables, tenant: int, req: SnapshotRequest, s: StockInput)
    ensures CellFits(t, tenant, req, s) <==>
      (forall r :: r in t.stocks ==> !SameCell(r, StockRowOf(tenant, req, s))) && WarehouseKnown(t.warehouses, tenant, req.warehouses, s.warehouseId)
  {
  }

  lemma {:induction false} StorableIff(t: Tables, tenant: int, req: SnapshotRequest, vt: TimeParser)
    ensures Storable(t, tenant, req, vt) <==> FitsColumns(req, vt) && FitsKeys(t, tenant, req)
  {
    ColumnsFit(req, vt);
    KeysFit(t, tenant, req);
    hide FitsColumns, FitsKeys, WarehouseColumnsFit, StockColumnsFit, CostStorable, DistinctWarehouseIds, DistinctCells, CellsFree, WarehouseKnown;
  }

  /** The answer of an import, from the request and the tables alone. */
  lemma {:induction false} AnswerOfImport(t: Tables, tenant: int, req: SnapshotRequest, vt: TimeParser)
    ensures var (r, u), key := Import(t, tenant, req, vt), (tenant, req.batchId);
      var sound := |req.stocks| + |req.costs| > 0 && 1 <= |req.batchId| <= 128 && req.measuredAt != "";
      && (r == Rejected(EmptySnapshot) <==> |req.stocks| + |req.costs| == 0)
      && (r == Rejected(BadBatchId) <==> |req.stocks| + |req.costs| > 0 && (req.batchId == "" || |req.batchId| > 128))
      && (r == Rejected(NoMeasuredAt) <==> |req.stocks| + |req.costs| > 0 && 1 <= |req.batchId| <= 128 && req.measuredAt == "")
      && (r == Duplicate(req.batchId) <==> sound && key in t.snapshots && t.snapshots[key].payload == CanonicalTree(req))
      && (r == Rejected(BatchReused) <==> sound && key in t.snapshots && t.snapshots[key].payload != CanonicalTree(req))
      && (r == Imported(req.batchId, |req.stocks|, |req.costs|) <==>
            sound && key !in t.snapshots && FitsColumns(req, vt) && FitsKeys(t, tenant, req))
      && (r == Rejected(DbError) <==> sound && key !in t.snapshots && !(FitsColumns(req, vt) && FitsKeys(t, tenant, req)))
      && (!r.Imported? ==> u == t)
  {
    StorableIff(t, tenant, req, vt);
    hide Storable, FitsColumns, FitsKeys, CanonicalTree, Stored;
  }

  // ---- stocks, warehouses and the snapshot row ----

  /** The inserted row, column by column; an empty offer is stored as absent. */
  ghost predicate RowFor(r: StockRow, tenant: int, req: SnapshotRequest, s: StockInput) {
    && r.tenant == tenant && r.batchId == req.batchId && r.measuredAt == req.measuredAt
    && r.sku1c == s.sku1c && r.warehouseId == s.warehouseId && r.available == s.available && r.reserved == s.reserved
    && (r.offerId.Some? <==> s.offerId.Some? && s.offerId.value != "")
    && (r.offerId.Some? ==> r.offerId.value == s.offerId.value)
  }

  lemma {:induction false} RowForIff(r: StockRow, tenant: int, req: SnapshotRequest, s: StockInput)
    ensures RowFor(r, tenant, req, s) <==> r == StockRowOf(tenant, req, s)
  {
  }

  lemma {:induction false} CommittedTables(t: Tables, tenant: int, req: SnapshotRequest, vt: TimeParser)
    requires Import(t, tenant, req, vt).0.Imported?
    ensures Import(t, tenant, req, vt).1 == Stored(t, tenant, req) && DistinctWarehouseIds(req.warehouses)
  {
    hide Stored, CanonicalTree;
  }

  lemma {:induction false} CommittedParts(t: Tables, tenant: int, req: SnapshotRequest, vt: TimeParser)
    requires Import(t, tenant, req, vt).0.Imported?
    ensures var u := Import(t, tenant, req, vt).1;
      && u.stocks == t.stocks + RowsOfStocks(tenant, req)
      && u.warehouses == UpsertAll(t.warehouses, WarehouseEntries(tenant, req.warehouses))
      && u.costBatch == BatchAfter(WithoutTenant(t.costBatch, tenant), tenant, req.costs)
      && u.costSupplier == SupplierAfter(WithoutTenant(t.costSupplier, tenant), tenant, req.costs)
    ensures DistinctWarehouseIds(req.warehouses)
  {
    CommittedTables(t, tenant, req, vt);
    hide Import, CanonicalTree, RowsOfStocks, UpsertAll, WarehouseEntries, BatchAfter, SupplierAfter, WithoutTenant;
  }

  /** After a commit the stock table has its old rows and one row for each stock of the request. */
  lemma {:induction false} CommittedStocks(t: Tables, tenant: int, req: SnapshotRequest, vt: TimeParser)
    requires Import(t, tenant, req, vt).0.Imported?
    ensures forall r :: r in Import(t, tenant, req, vt).1.stocks <==>
      r in t.stocks || exists i :: 0 <= i < |req.stocks| && RowFor(r, tenant, req, req.stocks[i])
  {
    hide *;
    CommittedParts(t, tenant, req, vt);
    forall r ensures r in RowsOfStocks(tenant, req) <==> exists i :: 0 <= i < |req.stocks| && RowFor(r, tenant, req, req.stocks[i]) {
      NewRow(tenant, req, r);
    }
  }

  lemma {:induction false} NewRow(tenant: int, req: SnapshotRequest, r: StockRow)
    ensures r in RowsOfStocks(tenant, req) <==> exists i :: 0 <= i < |req.stocks| && RowFor(r, tenant, req, req.stocks[i])
  {
    forall s ensures RowFor(r, tenant, req, s) <==> r == StockRowOf(tenant, req, s) { RowForIff(r, tenant, req, s); }
    hide RowFor, StockRowOf;
    if r in RowsOfStocks(tenant, req) {
      var s :| s in req.stocks && r == StockRowOf(tenant, req, s);
      var i :| 0 <= i < |req.stocks| && req.stocks[i] == s;
    }
    if i :| 0 <= i < |req.stocks| && RowFor(r, tenant, req, req.stocks[i]) {
      assert req.stocks[i] in req.stocks;
    }
  }

  /** The request gives this warehouse this name. */
  ghost predicate NamesWarehouse(ws: seq<WarehouseInput>, tenant: int, k: RowKey, name: string) {
    k.0 == tenant && exists i :: 0 <= i < |ws| && ws[i].warehouseId == k.1 && ws[i].warehouseName == name
  }

  /** One key of the warehouse table: named by the request, or as it was. */
  ghost predicate WarehouseKept(m: map<RowKey, string>, u: map<RowKey, string>, ws: seq<WarehouseInput>, tenant: int, k: RowKey) {
    && (forall name :: NamesWarehouse(ws, tenant, k, name) ==> k in u && u[k] == name)
    && ((forall name :: !NamesWarehouse(ws, tenant, k, name)) ==> (k in u <==> k in m) && (k in u && k in m ==> u[k] == m[k]))
  }

  lemma {:induction false} EntryOfWarehouse(ws: seq<WarehouseInput>, tenant: int, k: RowKey, name: string)
    ensures NamesWarehouse(ws, tenant, k, name) <==> (k, name) in WarehouseEntries(tenant, ws)
  {
    var es := WarehouseEntries(tenant, ws);
    if NamesWarehouse(ws, tenant, k, name) {
      var i :| 0 <= i < |ws| && ws[i].warehouseId == k.1 && ws[i].warehouseName == name;
      assert es[i] == (k, name);
    }
    if (k, name) in es {
      var i :| 0 <= i < |es| && es[i] == (k, name);
      assert ws[i].warehouseId == k.1;
    }
  }

  lemma {:induction false} DistinctEntries(ws: seq<WarehouseInput>, tenant: int)
    requires DistinctWarehouseIds(ws)
    ensures DistinctFirst(WarehouseEntries(tenant, ws))
  {
  }

  lemma {:induction false} WarehouseWritten(m: map<RowKey, string>, ws: seq<WarehouseInput>, tenant: int, k: RowKey)
    requires DistinctWarehouseIds(ws)
    ensures WarehouseKept(m, UpsertAll(m, WarehouseEntries(tenant, ws)), ws, tenant, k)
  {
    var es := WarehouseEntries(tenant, ws);
    DistinctEntries(ws, tenant);
    hide UpsertAll, WarehouseEntries, NamesWarehouse, DistinctFirst, DistinctWarehouseIds;
    forall name ensures NamesWarehouse(ws, tenant, k, name) <==> (k, name) in es { EntryOfWarehouse(ws, tenant, k, name); }
    if name :| NamesWarehouse(ws, tenant, k, name) {
      forall other | NamesWarehouse(ws, tenant, k, other) ensures k in UpsertAll(m, es) && UpsertAll(m, es)[k] == other {
        UpsertWritten(m, es, (k, other));
      }
    } else {
      forall e | e in es ensures e.0 != k {
        assert e == (e.0, e.1) && !NamesWarehouse(ws, tenant, k, e.1);
      }
      UpsertUntouched(m, es, k);
    }
  }

  /** The warehouses of the request are on record under their names there, the others as before. */
  lemma {:induction false} CommittedWarehouses(t: Tables, tenant: int, req: SnapshotRequest, vt: TimeParser)
    requires Import(t, tenant, req, vt).0.Imported?
    ensures forall k :: WarehouseKept(t.warehouses, Import(t, tenant, req, vt).1.warehouses, req.warehouses, tenant, k)
  {
    hide *;
    CommittedParts(t, tenant, req, vt);
    forall k ensures WarehouseKept(t.warehouses, Import(t, tenant, req, vt).1.warehouses, req.warehouses, tenant, k) {
      WarehouseWritten(t.warehouses, req.warehouses, tenant, k);
    }
  }

  /** The snapshot table gets one row, with the hash of the request and its numbers of rows. */
  lemma {:induction false} CommittedSnapshot(t: Tables, tenant: int, req: SnapshotRequest, vt: TimeParser)
    requires Import(t, tenant, req, vt).0.Imported?
    ensures var u, key := Import(t, tenant, req, vt).1.snapshots, (tenant, req.batchId);
      && key !in t.snapshots && u.Keys == t.snapshots.Keys + {key}
      && (forall k :: k in t.snapshots ==> u[k] == t.snapshots[k])
      && u[key].payload == CanonicalTree(req) && u[key].measuredAt == req.measuredAt
      && u[key].stocksCount == |req.stocks| && u[key].costsCount == |req.costs|
  {
    hide CanonicalTree, Storable;
  }

  // ---- the two cost tables ----

  /** Cost i is the last of its product that has a positive average. */
  ghost predicate LastAverage(costs: seq<CostInput>, i: int) {
    && 0 <= i < |costs| && costs[i].batchAvgCost.Some? && costs[i].batchAvgCost.value > 0.0
    && forall j :: i < j < |costs| && costs[j].sku1c == costs[i].sku1c && costs[j].batchAvgCost.Some? ==>
         costs[j].batchAvgCost.value <= 0.0
  }

  /** Cost i is the last of its product that has a purchase cost. */
  ghost predicate LastPurchase(costs: seq<CostInput>, i: int) {
    && 0 <= i < |costs| && costs[i].purchaseCost.Some?
    && forall j :: i < j < |costs| && costs[j].sku1c == costs[i].sku1c ==> costs[j].purchaseCost.None?
  }

  ghost predicate AverageOn(costs: seq<CostInput>, sku: string, i: int) { LastAverage(costs, i) && costs[i].sku1c == sku }

  ghost predicate PurchaseOn(costs: seq<CostInput>, sku: string, i: int) { LastPurchase(costs, i) && costs[i].sku1c == sku }

  lemma {:induction false} AverageOnStep(costs: seq<CostInput>, sku: string, i: int)
    requires costs != []
    ensures var n := |costs| - 1;
      AverageOn(costs, sku, i) <==> if HasAverage(costs[n]) && costs[n].sku1c == sku then i == n else AverageOn(costs[..n], sku, i)
  {
    var n := |costs| - 1;
    assert forall j :: 0 <= j < n ==> costs[..n][j] == costs[j];
  }

  lemma {:induction false} PurchaseOnStep(costs: seq<CostInput>, sku: string, i: int)
    requires costs != []
    ensures var n := |costs| - 1;
      PurchaseOn(costs, sku, i) <==> if HasPurchase(costs[n]) && costs[n].sku1c == sku then i == n else PurchaseOn(costs[..n], sku, i)
  {
    var n := |costs| - 1;
    assert forall j :: 0 <= j < n ==> costs[..n][j] == costs[j];
  }

  /** The row for a purchase: purchase, source, time and dealer price. */
  ghost predicate SupplierRowFor(r: SupplierRow, c: CostInput) {
    && c.purchaseCost == Some(r.purchase)
    && r.source == (if c.purchaseSource.Some? then c.purchaseSource.value else "")
    && r.sourceAt == (if c.purchaseSourceAt.Some? then c.purchaseSourceAt.value else "")
    && r.dealer == (if c.dealerCost.Some? then c.dealerCost.value else 0.0)
  }

  /** One key of pricing_cost_batch: the last average of the product, or as it was. */
  ghost predicate BatchKept(m: map<RowKey, real>, u: map<RowKey, real>, costs: seq<CostInput>, tenant: int, k: RowKey) {
    && (forall i :: k.0 == tenant && AverageOn(costs, k.1, i) ==> k in u && costs[i].batchAvgCost == Some(u[k]))
    && ((k.0 == tenant ==> forall i :: !AverageOn(costs, k.1, i)) ==> (k in u <==> k in m) && (k in u && k in m ==> u[k] == m[k]))
  }

  ghost predicate SupplierKept(m: map<RowKey, SupplierRow>, u: map<RowKey, SupplierRow>, costs: seq<CostInput>, tenant: int, k: RowKey) {
    && (forall i :: k.0 == tenant && PurchaseOn(costs, k.1, i) ==> k in u && SupplierRowFor(u[k], costs[i]))
    && ((k.0 == tenant ==> forall i :: !PurchaseOn(costs, k.1, i)) ==> (k in u <==> k in m) && (k in u && k in m ==> u[k] == m[k]))
  }

  lemma {:induction false} OnWithin(costs: seq<CostInput>, sku: string, i: int)
    ensures AverageOn(costs, sku, i) || PurchaseOn(costs, sku, i) ==> 0 <= i < |costs|
  {
  }

  lemma {:induction false} BatchKeptStep(m: map<RowKey, real>, u: map<RowKey, real>, costs: seq<CostInput>, tenant: int, k: RowKey)
    requires costs != [] && BatchKept(m, u, costs[..|costs| - 1], tenant, k)
    ensures BatchKept(m, BatchWith(u, tenant, costs[|costs| - 1]), costs, tenant, k)
  {
    var n := |costs| - 1;
    forall i ensures AverageOn(costs, k.1, i) <==>
      if HasAverage(costs[n]) && costs[n].sku1c == k.1 then i == n else AverageOn(costs[..n], k.1, i)
    {
      AverageOnStep(costs, k.1, i);
    }
    forall i | AverageOn(costs[..n], k.1, i) ensures 0 <= i < n { OnWithin(costs[..n], k.1, i); }
    hide AverageOn;
  }

  lemma {:induction false} SupplierWrites(u: map<RowKey, SupplierRow>, tenant: int, c: CostInput, k: RowKey)
    ensures var v := SupplierWith(u, tenant, c);
      if HasPurchase(c) && k.0 == tenant && k.1 == c.sku1c then k in v && SupplierRowFor(v[k], c)
      else (k in v <==> k in u) && (k in v && k in u ==> v[k] == u[k])
  {
  }

  lemma {:induction false} SupplierKeptStep(m: map<RowKey, SupplierRow>, u: map<RowKey, SupplierRow>, costs: seq<CostInput>, tenant: int, k: RowKey)
    requires costs != [] && SupplierKept(m, u, costs[..|costs| - 1], tenant, k)
    ensures SupplierKept(m, SupplierWith(u, tenant, costs[|costs| - 1]), costs, tenant, k)
  {
    var n := |costs| - 1;
    forall i ensures PurchaseOn(costs, k.1, i) <==>
      if HasPurchase(costs[n]) && costs[n].sku1c == k.1 then i == n else PurchaseOn(costs[..n], k.1, i)
    {
      PurchaseOnStep(costs, k.1, i);
    }
    forall i | PurchaseOn(costs[..n], k.1, i) ensures 0 <= i < n && costs[..n][i] == costs[i] { OnWithin(costs[..n], k.1, i); }
    SupplierWrites(u, tenant, costs[n], k);
    hide PurchaseOn, SupplierWith, SupplierRowFor;
  }

  lemma {:induction false} NoAverage(m: map<RowKey, real>, tenant: int, k: RowKey)
    ensures BatchKept(m, m, [], tenant, k)
  {
    forall i ensures !AverageOn([], k.1, i) { OnWithin([], k.1, i); }
    hide AverageOn;
  }

  lemma {:induction false} NoPurchase(m: map<RowKey, SupplierRow>, tenant: int, k: RowKey)
    ensures SupplierKept(m, m, [], tenant, k)
  {
    forall i ensures !PurchaseOn([], k.1, i) { OnWithin([], k.1, i); }
    hide PurchaseOn;
  }

  lemma {:induction false} CostsKept(m: map<RowKey, real>, s: map<RowKey, SupplierRow>, tenant: int, costs: seq<CostInput>, k: RowKey)
    ensures BatchKept(m, BatchAfter(m, tenant, costs), costs, tenant, k)
    ensures SupplierKept(s, SupplierAfter(s, tenant, costs), costs, tenant, k)
  {
    hide *;
    if costs == [] {
      NoCosts(tenant, m, s);
      NoAverage(m, tenant, k);
      NoPurchase(s, tenant, k);
    } else {
      var n := |costs| - 1;
      CostsKept(m, s, tenant, costs[..n], k);
      CostsSnoc(costs, n, tenant, m, s);
      assert costs[..n + 1] == costs;
      BatchKeptStep(m, BatchAfter(m, tenant, costs[..n]), costs, tenant, k);
      SupplierKeptStep(s, SupplierAfter(s, tenant, costs[..n]), costs, tenant, k);
    }
  }

  lemma {:induction false} OnlyOthers<V>(m: map<RowKey, V>, tenant: int)
    ensures forall k :: k in WithoutTenant(m, tenant) <==> k in m && k.0 != tenant
    ensures forall k :: k in WithoutTenant(m, tenant) ==> WithoutTenant(m, tenant)[k] == m[k]
  {
  }

  /** A key of another tenant keeps its value. */
  ghost predicate OthersKept<V>(m: map<RowKey, V>, u: map<RowKey, V>, tenant: int) {
    forall k: RowKey :: k.0 != tenant ==> (k in u <==> k in m) && (k in u && k in m ==> u[k] == m[k])
  }

  lemma {:induction false} BatchCommitted(t: map<RowKey, real>, tenant: int, costs: seq<CostInput>)
    ensures var u := BatchAfter(WithoutTenant(t, tenant), tenant, costs);
      && OthersKept(t, u, tenant)
      && (forall sku :: (tenant, sku) in u <==> exists i :: AverageOn(costs, sku, i))
      && (forall sku, i :: AverageOn(costs, sku, i) ==> (tenant, sku) in u && costs[i].batchAvgCost == Some(u[(tenant, sku)]))
  {
    var m := WithoutTenant(t, tenant);
    OnlyOthers(t, tenant);
    hide WithoutTenant, BatchAfter, AverageOn;
    var u := BatchAfter(m, tenant, costs);
    forall k: RowKey ensures BatchKept(m, u, costs, tenant, k) { CostsKept(m, map[], tenant, costs, k); }
    forall sku, i | AverageOn(costs, sku, i) ensures 0 <= i < |costs| { OnWithin(costs, sku, i); }
    forall k: RowKey | k.0 != tenant ensures (k in u <==> k in t) && (k in u && k in t ==> u[k] == t[k]) {
      assert BatchKept(m, u, costs, tenant, k);
    }
    forall sku ensures (tenant, sku) in u <==> exists i :: AverageOn(costs, sku, i) {
      assert BatchKept(m, u, costs, tenant, (tenant, sku));
    }
    forall sku, i | AverageOn(costs, sku, i) ensures (tenant, sku) in u && costs[i].batchAvgCost == Some(u[(tenant, sku)]) {
      assert BatchKept(m, u, costs, tenant, (tenant, sku));
    }
  }

  lemma {:induction false} SupplierCommitted(t: map<RowKey, SupplierRow>, tenant: int, costs: seq<CostInput>)
    ensures var u := SupplierAfter(WithoutTenant(t, tenant), tenant, costs);
      && OthersKept(t, u, tenant)
      && (forall sku :: (tenant, sku) in u <==> exists i :: PurchaseOn(costs, sku, i))
      && (forall sku, i :: PurchaseOn(costs, sku, i) ==> (tenant, sku) in u && SupplierRowFor(u[(tenant, sku)], costs[i]))
  {
    var m := WithoutTenant(t, tenant);
    OnlyOthers(t, tenant);
    hide WithoutTenant, SupplierAfter, PurchaseOn, SupplierRowFor;
    var u := SupplierAfter(m, tenant, costs);
    forall k: RowKey ensures SupplierKept(m, u, costs, tenant, k) { CostsKept(map[], m, tenant, costs, k); }
    forall sku, i | PurchaseOn(costs, sku, i) ensures 0 <= i < |costs| { OnWithin(costs, sku, i); }
    forall k: RowKey | k.0 != tenant ensures (k in u <==> k in t) && (k in u && k in t ==> u[k] == t[k]) {
      assert SupplierKept(m, u, costs, tenant, k);
    }
    forall sku ensures (tenant, sku) in u <==> exists i :: PurchaseOn(costs, sku, i) {
      assert SupplierKept(m, u, costs, tenant, (tenant, sku));
    }
    forall sku, i | PurchaseOn(costs, sku, i) ensures (tenant, sku) in u && SupplierRowFor(u[(tenant, sku)], costs[i]) {
      assert SupplierKept(m, u, costs, tenant, (tenant, sku));
    }
  }

  /** pricing_cost_batch after a commit.  The other tenants keep their rows; of this tenant
      exactly the products of the request with a positive average have one, with the last. */
  lemma {:induction false} CommittedAverages(t: Tables, tenant: int, req: SnapshotRequest, vt: TimeParser)
    requires Import(t, tenant, req, vt).0.Imported?
    ensures var u := Import(t, tenant, req, vt).1.costBatch;
      && OthersKept(t.costBatch, u, tenant)
      && (forall sku :: (tenant, sku) in u <==> exists i :: AverageOn(req.costs, sku, i))
      && (forall sku, i :: AverageOn(req.costs, sku, i) ==> (tenant, sku) in u && req.costs[i].batchAvgCost == Some(u[(tenant, sku)]))
  {
    hide *;
    CommittedParts(t, tenant, req, vt);
    BatchCommitted(t.costBatch, tenant, req.costs);
  }

  /** pricing_cost_supplier after a commit: the same for the products with a purchase cost. */
  lemma {:induction false} CommittedPurchases(t: Tables, tenant: int, req: SnapshotRequest, vt: TimeParser)
    requires Import(t, tenant, req, vt).0.Imported?
    ensures var u := Import(t, tenant, req, vt).1.costSupplier;
      && OthersKept(t.costSupplier, u, tenant)
      && (forall sku :: (tenant, sku) in u <==> exists i :: PurchaseOn(req.costs, sku, i))
      && (forall sku, i :: PurchaseOn(req.costs, sku, i) ==> (tenant, sku) in u && SupplierRowFor(u[(tenant, sku)], req.costs[i]))
  {
    hide *;
    CommittedParts(t, tenant, req, vt);
    SupplierCommitted(t.costSupplier, tenant, req.costs);
  }

  /** With one cost per product the last one is the only one. */
  lemma {:induction false} OneCostPerProduct(costs: seq<CostInput>, i: int)
    requires forall i, j :: 0 <= i < j < |costs| ==> costs[i].sku1c != costs[j].sku1c
    ensures LastAverage(costs, i) <==> 0 <= i < |costs| && costs[i].batchAvgCost.Some? && costs[i].batchAvgCost.value > 0.0
    ensures LastPurchase(costs, i) <==> 0 <= i < |costs| && costs[i].purchaseCost.Some?
  {
  }
}
