/** From 1C to the data base: the schedule of the worker threads and the iteration order
    of the hash maps cannot change what is stored. */
module EndToEnd {
  import opened Sequences
  import opened Order
  import opened BalanceRead
  import opened Ka2Pull
  import opened Snapshot
  import opened SnapshotBuild
  import opened SnapshotFacts
  import opened Canonical
  import opened SnapshotImport
  import opened ImportFacts
  import SnapshotContents
  import ImportedTables

  /** What 1C guarantees about the data asked for. */
  ghost predicate WellFormed(data: OneC, productKeys: seq<string>) {
    && OneProductPerAnalytic(RowsOf(data.analytics, productKeys))
    && (forall r :: r in RowsOf(data.stocks, productKeys) ==> '|' !in r.nomenclatureKey)
    && TiesAgree(RowsOf(data.suppliers, productKeys))
    && (forall i, j :: 0 <= i < j < |data.warehouses| ==> data.warehouses[i].refKey != data.warehouses[j].refKey)
  }

  function RefKeyOf(w: Warehouse): Key { [w.refKey] }

  lemma {:induction false} WarehouseLinesDistinct(data: OneC, productKeys: seq<string>, o: Options, run: PullRun, allowed: set<string>)
    requires WellFormed(data, productKeys) && CompletePull(data, productKeys, o, run)
    ensures DistinctKeys(WarehouseLines(Pulled(data, o, run).warehouses, allowed), WarehouseSortKey)
  {
    assert DistinctKeys(data.warehouses, RefKeyOf) by {
      forall i, j | 0 <= i < j < |data.warehouses| ensures RefKeyOf(data.warehouses[i]) != RefKeyOf(data.warehouses[j]) {
        assert RefKeyOf(data.warehouses[i])[0] != RefKeyOf(data.warehouses[j])[0];
      }
    }
    FilterKeepsOrder(data.warehouses, KeptWarehouse, RefKeyOf);
    var kept := Filter(data.warehouses, KeptWarehouse);
    WholeCatalogueRead(data.warehouses, o.pageSizeFlat, run.warehouseFaults);
    FilterKeepsOrder(kept, w => KeepsWarehouse(allowed, w), RefKeyOf);
    var shown := Filter(kept, w => KeepsWarehouse(allowed, w));
    forall i, j | 0 <= i < j < |shown|
      ensures WarehouseSortKey(WarehouseLines(kept, allowed)[i]) != WarehouseSortKey(WarehouseLines(kept, allowed)[j])
    {
      assert RefKeyOf(shown[i]) != RefKeyOf(shown[j]);
    }
  }

  lemma {:induction false} PulledRecords(data: OneC, productKeys: seq<string>, o: Options, run: PullRun)
    requires CompletePull(data, productKeys, o, run) && WellFormed(data, productKeys)
    ensures NoBar(Pulled(data, o, run).stocks)
    ensures TiesAgree(Pulled(data, o, run).suppliers)
    ensures OneProductPerAnalytic(Pulled(data, o, run).analytics)
  {
    CompleteBalanceRows(data.stocks, productKeys, run.workers, run.stockTrouble, run.stockRun);
    PermutationSize(Out(run.stockRun), RowsOf(data.stocks, productKeys));
    forall s | s in StocksOf(Out(run.stockRun)) ensures '|' !in s.nomenclatureKey {
      var kept := Filter(Out(run.stockRun), KeptStock);
      var i :| 0 <= i < |kept| && StocksOf(Out(run.stockRun))[i] == s;
      assert kept[i] in kept && s == StockOf(kept[i]);
    }
    CompleteFlatRows(data.suppliers, productKeys, o, run.workers, run.supplierFaults, run.supplierRun);
    PermutationSize(Out(run.supplierRun), RowsOf(data.suppliers, productKeys));
    CompleteFlatRows(data.analytics, productKeys, o, run.workers, run.analyticFaults, run.analyticRun);
    PermutationSize(Out(run.analyticRun), RowsOf(data.analytics, productKeys));
    var out := AnalyticsOf(Out(run.analyticRun));
    forall a | a in out ensures a in Out(run.analyticRun) {
      var i :| 0 <= i < |out| && out[i] == a;
    }
  }

  lemma {:induction false} SnapshotDistinct(req: SnapshotRequest, data: OneC, productKeys: seq<string>, o: Options, run: PullRun, period: string,
                         offers: map<string, string>, isPreview: bool, allowed: set<string>)
    requires CompletePull(data, productKeys, o, run) && WellFormed(data, productKeys)
    requires IsSnapshot(req, period, Pulled(data, o, run), offers, isPreview, allowed)
    ensures DistinctLists(req)
  {
    var p := Pulled(data, o, run);
    StockListDistinct(req.stocks, AllowedRows(p.stocks, allowed), p.warehouses, offers);
    CostListDistinct(req.costs, p.costs, AnalitToNom(p.analytics), p.suppliers);
    WarehouseLinesDistinct(data, productKeys, o, run, allowed);
  }

  lemma {:induction false} WellFormedPermuted(data: OneC, keys1: seq<string>, keys2: seq<string>)
    requires multiset(keys1) == multiset(keys2) && WellFormed(data, keys1)
    ensures WellFormed(data, keys2)
  {
    RowsOfPermutation(data.analytics, keys1, keys2);
    RowsOfPermutation(data.stocks, keys1, keys2);
    RowsOfPermutation(data.suppliers, keys1, keys2);
    PermutationSize(RowsOf(data.analytics, keys1), RowsOf(data.analytics, keys2));
    PermutationSize(RowsOf(data.stocks, keys1), RowsOf(data.stocks, keys2));
    PermutationSize(RowsOf(data.suppliers, keys1), RowsOf(data.suppliers, keys2));
    hide RowsOf;
  }

  /** Two pulls of the same data for the same products, in any order of the products, by any
      number of threads under any two schedules, built into snapshots in any hash order, have
      equal content. */
  lemma {:induction false} SnapshotsAgree(data: OneC, keys1: seq<string>, keys2: seq<string>, o: Options, run1: PullRun, run2: PullRun, period: string,
                       offers: map<string, string>, isPreview: bool, allowed: set<string>,
                       req1: SnapshotRequest, req2: SnapshotRequest)
    requires multiset(keys1) == multiset(keys2)
    requires CompletePull(data, keys1, o, run1) && CompletePull(data, keys2, o, run2)
    requires WellFormed(data, keys1)
    requires IsSnapshot(req1, period, Pulled(data, o, run1), offers, isPreview, allowed)
    requires IsSnapshot(req2, period, Pulled(data, o, run2), offers, isPreview, allowed)
    ensures SameContent(req1, req2)
  {
    hide CompletePull, OneProductPerAnalytic, NoBar, TiesAgree, HasStockList, HasCostList;
    var p, q := Pulled(data, o, run1), Pulled(data, o, run2);
    PullsAgree(data, keys1, keys2, o, run1, run2);
    PulledRecords(data, keys1, o, run1);
    var rows1, rows2 := AllowedRows(p.stocks, allowed), AllowedRows(q.stocks, allowed);
    FilterPermutation(p.stocks, q.stocks, s => KeepsStock(allowed, s));
    NoBarAllowed(p.stocks, allowed);
    StockListsAgree(req1.stocks, rows1, req2.stocks, rows2, p.warehouses, offers);
    CostListsAgree(req1.costs, p, req2.costs, q);
    MapPermutation(req1.stocks, req2.stocks, NormStock);
    MapPermutation(req1.costs, req2.costs, NormCost);
  }

  lemma {:induction false} NoBarAllowed(stocks: seq<StockBalance>, allowed: set<string>)
    requires NoBar(stocks)
    ensures NoBar(AllowedRows(stocks, allowed))
  {
  }

  /** The end-to-end theorem: both snapshots hash alike and have the same effect on any
      tables, and after one of them is stored the other is recognised as a duplicate and
      changes nothing. */
  lemma {:induction false} ScheduleCannotChangeWhatIsStored(data: OneC, keys1: seq<string>, keys2: seq<string>, o: Options, run1: PullRun, run2: PullRun,
                                         period: string, offers: map<string, string>, isPreview: bool, allowed: set<string>,
                                         req1: SnapshotRequest, req2: SnapshotRequest, t: Tables, tenant: int, vt: TimeParser)
    requires multiset(keys1) == multiset(keys2)
    requires CompletePull(data, keys1, o, run1) && CompletePull(data, keys2, o, run2)
    requires WellFormed(data, keys1)
    requires IsSnapshot(req1, period, Pulled(data, o, run1), offers, isPreview, allowed)
    requires IsSnapshot(req2, period, Pulled(data, o, run2), offers, isPreview, allowed)
    ensures CanonicalTree(req1) == CanonicalTree(req2)
    ensures Import(t, tenant, req1, vt) == Import(t, tenant, req2, vt)
    ensures var (r, u) := Import(t, tenant, req1, vt);
      !r.Rejected? ==> Import(u, tenant, req2, vt) == (Duplicate(req1.batchId), u)
  {
    SnapshotsAgree(data, keys1, keys2, o, run1, run2, period, offers, isPreview, allowed, req1, req2);
    SnapshotDistinct(req1, data, keys1, o, run1, period, offers, isPreview, allowed);
    WellFormedPermuted(data, keys1, keys2);
    SnapshotDistinct(req2, data, keys2, o, run2, period, offers, isPreview, allowed);
    CanonicalForm(req1, req2);
    SameContentSameImport(t, tenant, req1, req2, vt);
    SecondImport(t, tenant, req1, req2, vt);
  }

  lemma {:induction false} StoredPayload(t: Tables, tenant: int, req: SnapshotRequest)
    ensures (tenant, req.batchId) in Stored(t, tenant, req).snapshots
    ensures Stored(t, tenant, req).snapshots[(tenant, req.batchId)].payload == CanonicalTree(req)
  {
    hide CanonicalTree;
  }

  lemma {:induction false} SecondImport(t: Tables, tenant: int, req1: SnapshotRequest, req2: SnapshotRequest, vt: TimeParser)
    requires SameContent(req1, req2) && CanonicalTree(req1) == CanonicalTree(req2)
    ensures var (r, u) := Import(t, tenant, req1, vt);
      !r.Rejected? ==> Import(u, tenant, req2, vt) == (Duplicate(req1.batchId), u)
  {
    SameHead(req1, req2);
    SameEmptiness(req1, req2);
    ImportedIsRecorded(t, tenant, req1, vt);
    hide *;
    if !Import(t, tenant, req1, vt).0.Rejected? {
      RecordedIsDuplicate(Import(t, tenant, req1, vt).1, tenant, req1, req2, vt);
    }
  }

  /** The request passes the checks before the transaction and its payload is on record. */
  ghost predicate Recorded(u: Tables, tenant: int, req: SnapshotRequest) {
    && (req.stocks != [] || req.costs != [])
    && req.batchId != "" && |req.batchId| <= 128 && req.measuredAt != ""
    && (tenant, req.batchId) in u.snapshots
    && SamePayload(u.snapshots[(tenant, req.batchId)].payload, CanonicalTree(req))
  }

  lemma {:induction false} ImportedIsRecorded(t: Tables, tenant: int, req: SnapshotRequest, vt: TimeParser)
    ensures !Import(t, tenant, req, vt).0.Rejected? ==> Recorded(Import(t, tenant, req, vt).1, tenant, req)
  {
    StoredPayload(t, tenant, req);
    hide Storable, CanonicalTree, Stored;
  }

  lemma {:induction false} RecordedIsDuplicate(u: Tables, tenant: int, req1: SnapshotRequest, req2: SnapshotRequest, vt: TimeParser)
    requires Recorded(u, tenant, req1)
    requires |req1.stocks| == |req2.stocks| && |req1.costs| == |req2.costs|
    requires req1.batchId == req2.batchId && req1.measuredAt == req2.measuredAt && CanonicalTree(req1) == CanonicalTree(req2)
    ensures Import(u, tenant, req2, vt) == (Duplicate(req1.batchId), u)
  {
    hide Storable, CanonicalTree, SamePayload, Stored;
  }

  // ---- what is stored ----

  /** The stock of a product in a warehouse by the rows of 1C: what is on hand beyond what is to
      be shipped, never negative and cut to whole units row by row. */
  ghost function StockIn1C(rows: seq<RawStock>, sku: string, warehouse: string): int {
    SumInt(rows, (r: RawStock) =>
      if r.nomenclatureKey == sku && r.warehouseKey == warehouse && r.onHand > r.reserved then (r.onHand - r.reserved).Floor else 0)
  }

  lemma {:induction false} RecordedStock(rows: seq<RawStock>, sku: string, warehouse: string)
    requires sku != ""
    ensures SumInt(StocksOf(rows), s => CellShare(sku, warehouse, s)) == StockIn1C(rows, sku, warehouse)
  {
    var share := (r: RawStock) =>
      if r.nomenclatureKey == sku && r.warehouseKey == warehouse && r.onHand > r.reserved then (r.onHand - r.reserved).Floor else 0;
    var kept := Filter(rows, KeptStock);
    forall r ensures CellShare(sku, warehouse, StockOf(r)) == share(r) { ShareOfRow(r, sku, warehouse); }
    hide CellShare, StockOf, Filter, SumInt, KeptStock;
    SumIntMap(kept, StocksOf(rows), share, s => CellShare(sku, warehouse, s));
    forall r | !KeptStock(r) ensures share(r) == 0 { NoProduct(r); }
    SumIntFilter(rows, KeptStock, share);
  }

  lemma {:induction false} NoProduct(r: RawStock)
    ensures !KeptStock(r) ==> r.nomenclatureKey == ""
  {
  }

  lemma {:induction false} ShareOfRow(r: RawStock, sku: string, warehouse: string)
    ensures CellShare(sku, warehouse, StockOf(r)) ==
      if r.nomenclatureKey == sku && r.warehouseKey == warehouse && r.onHand > r.reserved then (r.onHand - r.reserved).Floor else 0
  {
  }

  /** Some row of 1C is for the product and the warehouse. */
  ghost predicate HasStockRow(rows: seq<RawStock>, sku: string, warehouse: string) {
    exists r :: r in rows && r.nomenclatureKey == sku && r.warehouseKey == warehouse
  }

  lemma {:induction false} RecordOfRow(rows: seq<RawStock>, sku: string, warehouse: string)
    requires sku != ""
    ensures HasStockRow(rows, sku, warehouse) <==> exists s :: s in StocksOf(rows) && s.nomenclatureKey == sku && s.warehouseKey == warehouse
  {
    var kept, out := Filter(rows, KeptStock), StocksOf(rows);
    if HasStockRow(rows, sku, warehouse) {
      var r :| r in rows && r.nomenclatureKey == sku && r.warehouseKey == warehouse;
      var j :| 0 <= j < |rows| && rows[j] == r;
      assert r in kept;
      var i :| 0 <= i < |kept| && kept[i] == r;
      assert out[i] == StockOf(r) && out[i] in out;
    }
    if s :| s in out && s.nomenclatureKey == sku && s.warehouseKey == warehouse {
      var i :| 0 <= i < |out| && out[i] == s;
      assert s == StockOf(kept[i]) && kept[i] in rows;
    }
    hide Filter, StocksOf;
  }

  /** The records of a complete pull hold what 1C holds. */
  lemma {:induction false} PulledStock(data: OneC, keys: seq<string>, o: Options, run: PullRun, sku: string, warehouse: string)
    requires CompletePull(data, keys, o, run) && sku != ""
    ensures var stocks, rows := Pulled(data, o, run).stocks, RowsOf(data.stocks, keys);
      && SumInt(stocks, s => CellShare(sku, warehouse, s)) == StockIn1C(rows, sku, warehouse)
      && (HasStockRow(rows, sku, warehouse) <==> exists s :: s in stocks && s.nomenclatureKey == sku && s.warehouseKey == warehouse)
  {
    hide *;
    var stocks, rows := Pulled(data, o, run).stocks, RowsOf(data.stocks, keys);
    CompletePullDelivers(data, keys, o, run);
    SumIntPermutation(stocks, StocksOf(rows), s => CellShare(sku, warehouse, s));
    RecordedStock(rows, sku, warehouse);
    RecordOfRow(rows, sku, warehouse);
    PermutationSize(stocks, StocksOf(rows));
  }

  lemma {:induction false} PulledNonNegative(data: OneC, o: Options, run: PullRun)
    ensures NonNegative(Pulled(data, o, run).stocks)
  {
    StocksNonNegative(Out(run.stockRun));
    hide StocksOf;
  }

  /** The snapshot of a complete pull holds the stock of 1C: a line for each product and allowed
      warehouse with a row there, and nothing else. */
  lemma {:induction false} SnapshotHoldsStock(data: OneC, keys: seq<string>, o: Options, run: PullRun, period: string,
                            offers: map<string, string>, isPreview: bool, allowed: set<string>, req: SnapshotRequest)
    requires CompletePull(data, keys, o, run) && WellFormed(data, keys)
    requires IsSnapshot(req, period, Pulled(data, o, run), offers, isPreview, allowed)
    ensures forall i :: 0 <= i < |req.stocks| ==> var s := req.stocks[i];
      s.reserved == 0 && s.available == StockIn1C(RowsOf(data.stocks, keys), s.sku1c, s.warehouseId)
    ensures forall sku, warehouse :: SnapshotContents.HasLine(req.stocks, sku, warehouse) <==>
      sku != "" && (allowed != {} ==> warehouse in allowed) && HasStockRow(RowsOf(data.stocks, keys), sku, warehouse)
  {
    var p := Pulled(data, o, run);
    PulledRecords(data, keys, o, run);
    PulledNonNegative(data, o, run);
    hide CompletePull, WellFormed, IsSnapshot, Pulled, RowsOf, StockIn1C, HasStockRow, SumInt, NoBar, NonNegative, CellShare;
    SnapshotContents.StocksOfRequest(req, period, p, offers, isPreview, allowed);
    SnapshotContents.LinesOfRequest(req, period, p, offers, isPreview, allowed);
    forall sku, warehouse | sku != ""
      ensures SumInt(p.stocks, s => CellShare(sku, warehouse, s)) == StockIn1C(RowsOf(data.stocks, keys), sku, warehouse)
      ensures HasStockRow(RowsOf(data.stocks, keys), sku, warehouse) <==> exists s :: s in p.stocks && s.nomenclatureKey == sku && s.warehouseKey == warehouse
    {
      PulledStock(data, keys, o, run, sku, warehouse);
    }
    forall i | 0 <= i < |req.stocks|
      ensures req.stocks[i].reserved == 0
      ensures req.stocks[i].available == StockIn1C(RowsOf(data.stocks, keys), req.stocks[i].sku1c, req.stocks[i].warehouseId)
    {
      var line := req.stocks[i];
      assert SnapshotContents.FromPulledRow(line, p.stocks, allowed) && SnapshotContents.DescribesWarehouse(line, p.warehouses, offers);
      assert StandsForCell(line, p.stocks);
      PulledStock(data, keys, o, run, line.sku1c, line.warehouseId);
    }
  }

  /** Some of these rows is for the product and the warehouse. */
  ghost predicate Stocked(rows: set<StockRow>, sku: string, warehouse: string) {
    exists r :: r in rows && r.sku1c == sku && r.warehouseId == warehouse
  }

  /** From the register of 1C to the stock table: after a complete pull is built into a snapshot
      and committed, the new rows are one for each product and allowed warehouse with a row in
      the register, and each holds the stock there. */
  lemma {:induction false} StoredStockIsThatOf1C(data: OneC, keys: seq<string>, o: Options, run: PullRun, period: string,
                               offers: map<string, string>, isPreview: bool, allowed: set<string>, req: SnapshotRequest,
                               t: Tables, tenant: int, vt: TimeParser)
    requires CompletePull(data, keys, o, run) && WellFormed(data, keys)
    requires IsSnapshot(req, period, Pulled(data, o, run), offers, isPreview, allowed)
    requires Import(t, tenant, req, vt).0.Imported?
    ensures var rows, added := RowsOf(data.stocks, keys), Import(t, tenant, req, vt).1.stocks - t.stocks;
      && (forall r :: r in added ==> r.tenant == tenant && r.batchId == req.batchId && r.measuredAt == period + "Z")
      && (forall r :: r in added ==> r.available == StockIn1C(rows, r.sku1c, r.warehouseId) && r.reserved == 0)
      && (forall sku, warehouse :: Stocked(added, sku, warehouse) <==>
            sku != "" && (allowed != {} ==> warehouse in allowed) && HasStockRow(rows, sku, warehouse))
  {
    hide *;
    SnapshotContents.HeadOfRequest(req, period, Pulled(data, o, run), offers, isPreview, allowed);
    SnapshotHoldsStock(data, keys, o, run, period, offers, isPreview, allowed, req);
    var rows, added := RowsOf(data.stocks, keys), Import(t, tenant, req, vt).1.stocks - t.stocks;
    forall r | r in added
      ensures r.tenant == tenant && r.batchId == req.batchId && r.measuredAt == period + "Z"
      ensures r.available == StockIn1C(rows, r.sku1c, r.warehouseId) && r.reserved == 0
    {
      var i := LineOfAdded(t, tenant, req, vt, r);
    }
    forall sku, warehouse ensures Stocked(added, sku, warehouse) <==>
      sku != "" && (allowed != {} ==> warehouse in allowed) && HasStockRow(rows, sku, warehouse)
    {
      LineStored(t, tenant, req, vt, sku, warehouse);
      assert SnapshotContents.HasLine(req.stocks, sku, warehouse) <==>
        sku != "" && (allowed != {} ==> warehouse in allowed) && HasStockRow(rows, sku, warehouse);
    }
  }

  lemma {:induction false} LineOfAdded(t: Tables, tenant: int, req: SnapshotRequest, vt: TimeParser, r: StockRow) returns (i: nat)
    requires Import(t, tenant, req, vt).0.Imported? && r in Import(t, tenant, req, vt).1.stocks - t.stocks
    ensures i < |req.stocks| && r.tenant == tenant && r.batchId == req.batchId && r.measuredAt == req.measuredAt
    ensures var s := req.stocks[i];
      r.sku1c == s.sku1c && r.warehouseId == s.warehouseId && r.available == s.available && r.reserved == s.reserved
  {
    AddedRows(t, tenant, req, vt);
    hide Import;
    i :| 0 <= i < |req.stocks| && ImportedTables.RowFor(r, tenant, req, req.stocks[i]);
  }

  /** The rows a commit adds are those of its stocks: none of them was there before. */
  lemma {:induction false} AddedRows(t: Tables, tenant: int, req: SnapshotRequest, vt: TimeParser)
    requires Import(t, tenant, req, vt).0.Imported?
    ensures forall r :: r in Import(t, tenant, req, vt).1.stocks - t.stocks <==>
      exists i :: 0 <= i < |req.stocks| && ImportedTables.RowFor(r, tenant, req, req.stocks[i])
  {
    hide *;
    ImportedTables.CommittedStocks(t, tenant, req, vt);
    forall r, i | 0 <= i < |req.stocks| && ImportedTables.RowFor(r, tenant, req, req.stocks[i]) ensures r !in t.stocks {
      CellWasFree(t, tenant, req, vt, r, i);
    }
  }

  lemma {:induction false} CellWasFree(t: Tables, tenant: int, req: SnapshotRequest, vt: TimeParser, r: StockRow, i: nat)
    requires Import(t, tenant, req, vt).0.Imported?
    requires i < |req.stocks| && ImportedTables.RowFor(r, tenant, req, req.stocks[i])
    ensures r !in t.stocks
  {
    ImportedTables.AnswerOfImport(t, tenant, req, vt);
    hide Import, ImportedTables.FitsColumns;
    assert ImportedTables.CellFits(t, tenant, req, req.stocks[i]);
  }

  lemma {:induction false} LineStored(t: Tables, tenant: int, req: SnapshotRequest, vt: TimeParser, sku: string, warehouse: string)
    requires Import(t, tenant, req, vt).0.Imported?
    ensures Stocked(Import(t, tenant, req, vt).1.stocks - t.stocks, sku, warehouse) <==> SnapshotContents.HasLine(req.stocks, sku, warehouse)
  {
    AddedRows(t, tenant, req, vt);
    hide Import;
    if SnapshotContents.HasLine(req.stocks, sku, warehouse) {
      var i :| 0 <= i < |req.stocks| && req.stocks[i].sku1c == sku && req.stocks[i].warehouseId == warehouse;
      ImportedTables.RowForIff(StockRowOf(tenant, req, req.stocks[i]), tenant, req, req.stocks[i]);
      assert ImportedTables.RowFor(StockRowOf(tenant, req, req.stocks[i]), tenant, req, req.stocks[i]);
    }
  }
}
