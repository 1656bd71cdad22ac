/** InventoryRepository::import_snapshot: one transaction over the inventory tables, with
    the constraints of sql/002_inventory.sql and sql/009_stocks_fk.sql. */
module SnapshotImport {
  import opened Sequences
  import opened Order
  import opened Snapshot
  import opened SnapshotFacts
  import opened Canonical

  type RowKey = (int, string)

  datatype StockRow = StockRow(tenant: int, sku1c: string, offerId: Option<string>, warehouseId: string,
                               available: int, reserved: int, measuredAt: string, batchId: string)

  /** The stored hash is modelled by the canonical tree itself: serialising and SHA-256
      are taken as injective. */
  datatype SnapshotRow = SnapshotRow(payload: Json, measuredAt: string, stocksCount: nat, costsCount: nat)

  datatype SupplierRow = SupplierRow(purchase: real, source: string, sourceAt: string, dealer: real)

  datatype Tables = Tables(
    snapshots: map<RowKey, SnapshotRow>,
    stocks: set<StockRow>,
    warehouses: map<RowKey, string>,
    costBatch: map<RowKey, real>,
    costSupplier: map<RowKey, SupplierRow>)

  datatype Reason = EmptySnapshot | BadBatchId | NoMeasuredAt | BatchReused | DbError

  datatype ImportResult =
    | Imported(batchId: string, stocksAccepted: nat, costsAccepted: nat)
    | Duplicate(batchId: string)
    | Rejected(reason: Reason)

  /** Which texts PostgreSQL reads as a timestamp. */
  type TimeParser = string -> bool

  const INT_MIN := -0x8000_0000
  const INT_MAX := 0x7fff_ffff

  // ---- what the constraints allow ----

  predicate FitsInt(n: int) { INT_MIN <= n <= INT_MAX }

  predicate StockColumnsFit(s: StockInput) {
    && |s.sku1c| <= 128 && |s.warehouseId| <= 64
    && (s.offerId.Some? ==> |s.offerId.value| <= 128)
    && FitsInt(s.available) && FitsInt(s.reserved)
  }

  predicate WarehouseColumnsFit(w: WarehouseInput) {
    |w.warehouseId| <= 64 && |w.warehouseName| <= 255
  }

  function ValueOr(v: Option<string>): string { if v.Some? then v.value else "" }

  /** Nothing is written for a cost without a positive average and without a purchase. */
  predicate CostStorable(c: CostInput, vt: TimeParser) {
    && (c.batchAvgCost.Some? && c.batchAvgCost.value > 0.0 ==> |c.sku1c| <= 128)
    && (c.purchaseCost.Some? ==> |c.sku1c| <= 128 && |ValueOr(c.purchaseSource)| <= 32 && vt(ValueOr(c.purchaseSourceAt)))
  }

  function StockRowOf(tenant: int, req: SnapshotRequest, s: StockInput): StockRow {
    StockRow(tenant, s.sku1c, NonEmpty(s.offerId), s.warehouseId, s.available, s.reserved, req.measuredAt, req.batchId)
  }

  /** The unique key of a stock row. */
  predicate SameCell(r: StockRow, q: StockRow) {
    r.tenant == q.tenant && r.sku1c == q.sku1c && r.warehouseId == q.warehouseId
  }

  function RowsOfStocks(tenant: int, req: SnapshotRequest): set<StockRow> {
    set s | s in req.stocks :: StockRowOf(tenant, req, s)
  }

  function WarehouseIds(ws: seq<WarehouseInput>): set<string> {
    set w | w in ws :: w.warehouseId
  }

  predicate DistinctWarehouseIds(ws: seq<WarehouseInput>) {
    forall i, j :: 0 <= i < j < |ws| ==> ws[i].warehouseId != ws[j].warehouseId
  }

  predicate DistinctCells(stocks: seq<StockInput>) {
    forall i, j :: 0 <= i < j < |stocks| ==>
      !(stocks[i].sku1c == stocks[j].sku1c && stocks[i].warehouseId == stocks[j].warehouseId)
  }

  /** No cell of the request is taken already by a row of this tenant. */
  predicate CellsFree(stocks: set<StockRow>, tenant: int, req: SnapshotRequest) {
    forall r, s :: r in stocks && s in req.stocks ==> !SameCell(r, StockRowOf(tenant, req, s))
  }

  predicate WarehouseKnown(warehouses: map<RowKey, string>, tenant: int, ws: seq<WarehouseInput>, id: string) {
    (tenant, id) in warehouses || id in WarehouseIds(ws)
  }

  /** The transaction commits exactly when no constraint fails. */
  predicate Storable(t: Tables, tenant: int, req: SnapshotRequest, vt: TimeParser) {
    && vt(req.measuredAt)
    && (forall w :: w in req.warehouses ==> WarehouseColumnsFit(w))
    && DistinctWarehouseIds(req.warehouses)
    && (forall s :: s in req.stocks ==> StockColumnsFit(s) && WarehouseKnown(t.warehouses, tenant, req.warehouses, s.warehouseId))
    && DistinctCells(req.stocks)
    && CellsFree(t.stocks, tenant, req)
    && (forall c :: c in req.costs ==> CostStorable(c, vt))
  }

  // ---- what a commit writes ----

  function WithoutTenant<V>(m: map<RowKey, V>, tenant: int): map<RowKey, V> {
    map k | k in m && k.0 != tenant :: m[k]
  }

  function WarehouseEntry(tenant: int, w: WarehouseInput): (RowKey, string) {
    ((tenant, w.warehouseId), w.warehouseName)
  }

  function WarehouseEntries(tenant: int, ws: seq<WarehouseInput>): seq<(RowKey, string)> {
    Map(ws, w => WarehouseEntry(tenant, w))
  }

  predicate HasAverage(c: CostInput) { c.batchAvgCost.Some? && c.batchAvgCost.value > 0.0 }

  predicate HasPurchase(c: CostInput) { c.purchaseCost.Some? }

  function NumberOr0(v: Option<real>): real { if v.Some? then v.value else 0.0 }

  function BatchEntry(tenant: int, c: CostInput): (RowKey, real) {
    ((tenant, c.sku1c), NumberOr0(c.batchAvgCost))
  }

  function SupplierEntry(tenant: int, c: CostInput): (RowKey, SupplierRow) {
    ((tenant, c.sku1c), SupplierRow(NumberOr0(c.purchaseCost), ValueOr(c.purchaseSource), ValueOr(c.purchaseSourceAt),
                                    NumberOr0(c.dealerCost)))
  }

  function BatchEntries(tenant: int, costs: seq<CostInput>): seq<(RowKey, real)> {
    Map(Filter(costs, HasAverage), c => BatchEntry(tenant, c))
  }

  function SupplierEntries(tenant: int, costs: seq<CostInput>): seq<(RowKey, SupplierRow)> {
    Map(Filter(costs, HasPurchase), c => SupplierEntry(tenant, c))
  }

  lemma {:induction false} EntriesAppend(tenant: int, costs: seq<CostInput>, i: nat)
    requires i < |costs|
    ensures BatchEntries(tenant, costs[..i + 1])
         == if HasAverage(costs[i]) then BatchEntries(tenant, costs[..i]) + [BatchEntry(tenant, costs[i])]
            else BatchEntries(tenant, costs[..i])
    ensures SupplierEntries(tenant, costs[..i + 1])
         == if HasPurchase(costs[i]) then SupplierEntries(tenant, costs[..i]) + [SupplierEntry(tenant, costs[i])]
            else SupplierEntries(tenant, costs[..i])
  {
    FilterAppend(costs, i, HasAverage);
    FilterAppend(costs, i, HasPurchase);
    MapAppend(Filter(costs[..i], HasAverage), costs[i], c => BatchEntry(tenant, c));
    MapAppend(Filter(costs[..i], HasPurchase), costs[i], c => SupplierEntry(tenant, c));
  }

  lemma {:induction false} UpsertSnoc<K, V>(m: map<K, V>, entries: seq<(K, V)>, e: (K, V))
    ensures UpsertAll(m, entries + [e]) == UpsertAll(m, entries)[e.0 := e.1]
  {
    assert (entries + [e])[..|entries|] == entries;
  }

  function Stored(t: Tables, tenant: int, req: SnapshotRequest): Tables {
    Tables(
      t.snapshots[(tenant, req.batchId) := SnapshotRow(CanonicalTree(req), req.measuredAt, |req.stocks|, |req.costs|)],
      t.stocks + RowsOfStocks(tenant, req),
      UpsertAll(t.warehouses, WarehouseEntries(tenant, req.warehouses)),
      BatchAfter(WithoutTenant(t.costBatch, tenant), tenant, req.costs),
      SupplierAfter(WithoutTenant(t.costSupplier, tenant), tenant, req.costs))
  }

  /** Comparison of the stored and the new payload hash. */
  predicate SamePayload(stored: Json, computed: Json) { stored == computed }

  function Verdict(t: Tables, tenant: int, req: SnapshotRequest, vt: TimeParser): ImportResult {
    if req.stocks == [] && req.costs == [] then Rejected(EmptySnapshot)
    else if req.batchId == "" || |req.batchId| > 128 then Rejected(BadBatchId)
    else if req.measuredAt == "" then Rejected(NoMeasuredAt)
    else if (tenant, req.batchId) in t.snapshots then
      if SamePayload(t.snapshots[(tenant, req.batchId)].payload, CanonicalTree(req)) then Duplicate(req.batchId)
      else Rejected(BatchReused)
    else if Storable(t, tenant, req, vt) then Imported(req.batchId, |req.stocks|, |req.costs|)
    else Rejected(DbError)
  }

  /** The outcome of an import and the tables after it: only a commit changes them. */
  function Import(t: Tables, tenant: int, req: SnapshotRequest, vt: TimeParser): (ImportResult, Tables) {
    var verdict := Verdict(t, tenant, req, vt);
    (verdict, if verdict.Imported? then Stored(t, tenant, req) else t)
  }

  // ---- the repository ----

  class InventoryDb {
    var snapshots: map<RowKey, SnapshotRow>
    var stocks: set<StockRow>
    var warehouses: map<RowKey, string>
    var costBatch: map<RowKey, real>
    var costSupplier: map<RowKey, SupplierRow>

    function View(): Tables
      reads this
    {
      Tables(snapshots, stocks, warehouses, costBatch, costSupplier)
    }

    constructor ()
      ensures View() == Tables(map[], {}, map[], map[], map[])
    {
      snapshots, stocks, warehouses, costBatch, costSupplier := map[], {}, map[], map[], map[];
    }

    /** The row loops fill a transaction; the fields change only on commit. */
    method ImportSnapshot(req: SnapshotRequest, tenant: int, vt: TimeParser) returns (r: ImportResult)
      modifies this
      ensures (r, View()) == Import(old(View()), tenant, req, vt)
    {
      var tx;
      r, tx := RunImport(Tables(snapshots, stocks, warehouses, costBatch, costSupplier), req, tenant, vt);
      snapshots, stocks, warehouses, costBatch, costSupplier := tx.snapshots, tx.stocks, tx.warehouses, tx.costBatch, tx.costSupplier;
    }
  }

  method RunImport(t: Tables, req: SnapshotRequest, tenant: int, vt: TimeParser) returns (r: ImportResult, after: Tables)
    ensures (r, after) == Import(t, tenant, req, vt)
  {
    after := t;
    if req.stocks == [] && req.costs == [] { return Rejected(EmptySnapshot), t; }
    if req.batchId == "" || |req.batchId| > 128 { return Rejected(BadBatchId), t; }
    if req.measuredAt == "" { return Rejected(NoMeasuredAt), t; }
    var payload := CanonicalJson(req);
    if (tenant, req.batchId) in t.snapshots {
      if SamePayload(t.snapshots[(tenant, req.batchId)].payload, payload) { return Duplicate(req.batchId), t; }
      return Rejected(BatchReused), t;
    }
    var ok, tx := Transaction(t, req, tenant, payload, vt);
    if !ok { return Rejected(DbError), t; }
    return Imported(req.batchId, |req.stocks|, |req.costs|), tx;
  }

  // ---- the transaction, statement by statement ----

  predicate WarehousesStorable(ws: seq<WarehouseInput>) {
    (forall w :: w in ws ==> WarehouseColumnsFit(w)) && DistinctWarehouseIds(ws)
  }

  /** The insert sees the warehouses that the upsert before it left. */
  predicate StocksStorable(req: SnapshotRequest, tenant: int, table: set<StockRow>, warehouses: map<RowKey, string>) {
    && (forall s :: s in req.stocks ==> StockColumnsFit(s) && (tenant, s.warehouseId) in warehouses)
    && DistinctCells(req.stocks) && CellsFree(table, tenant, req)
  }

  predicate CostsStorable(costs: seq<CostInput>, vt: TimeParser) {
    forall c :: c in costs ==> CostStorable(c, vt)
  }

  lemma {:induction false} StorableInSteps(t: Tables, tenant: int, req: SnapshotRequest, vt: TimeParser)
    ensures Storable(t, tenant, req, vt) <==>
      && vt(req.measuredAt) && WarehousesStorable(req.warehouses)
      && StocksStorable(req, tenant, t.stocks, UpsertAll(t.warehouses, WarehouseEntries(tenant, req.warehouses)))
      && CostsStorable(req.costs, vt)
  {
    WarehouseKeys(t.warehouses, tenant, req.warehouses);
    var warehouses := UpsertAll(t.warehouses, WarehouseEntries(tenant, req.warehouses));
    forall s: StockInput ensures (tenant, s.warehouseId) in warehouses <==> WarehouseKnown(t.warehouses, tenant, req.warehouses, s.warehouseId) {}
    hide UpsertAll, WarehouseEntries, WarehouseKnown, StockColumnsFit, WarehouseColumnsFit, DistinctCells, DistinctWarehouseIds, CellsFree, CostStorable;
  }

  /** The statements between BEGIN and COMMIT. */
  method Transaction(t: Tables, req: SnapshotRequest, tenant: int, payload: Json, vt: TimeParser) returns (ok: bool, tx: Tables)
    requires payload == CanonicalTree(req)
    ensures ok <==> Storable(t, tenant, req, vt)
    ensures ok ==> tx == Stored(t, tenant, req)
  {
    StorableInSteps(t, tenant, req, vt);
    hide Storable, WarehousesStorable, StocksStorable, CostsStorable, CanonicalTree, UpsertAll, WarehouseEntries, RowsOfStocks,
         BatchAfter, SupplierAfter, WithoutTenant;
    var costBatch, costSupplier := WithoutTenant(t.costBatch, tenant), WithoutTenant(t.costSupplier, tenant);
    var okW, warehouses := StreamWarehouses(req.warehouses, tenant, t.warehouses);
    if !okW { return false, t; }
    var okS, stocks := StreamStocks(req, tenant, t.stocks, warehouses);
    if !okS { return false, t; }
    var okC;
    okC, costBatch, costSupplier := WriteCosts(req.costs, tenant, costBatch, costSupplier, vt);
    if !okC || !vt(req.measuredAt) { return false, t; }
    ok := true;
    tx := Tables(t.snapshots[(tenant, req.batchId) := SnapshotRow(payload, req.measuredAt, |req.stocks|, |req.costs|)],
                 stocks, warehouses, costBatch, costSupplier);
  }

  /** COPY into tmp_wh row by row, then one upsert statement, which PostgreSQL refuses when
      an id occurs twice in it. */
  method StreamWarehouses(ws: seq<WarehouseInput>, tenant: int, table: map<RowKey, string>)
    returns (ok: bool, out: map<RowKey, string>)
    ensures ok <==> WarehousesStorable(ws)
    ensures ok ==> out == UpsertAll(table, WarehouseEntries(tenant, ws))
  {
    out := table;
    for i := 0 to |ws|
      invariant forall j :: 0 <= j < i ==> WarehouseColumnsFit(ws[j])
    {
      assert ws[i] in ws;
      if !WarehouseColumnsFit(ws[i]) { return false, table; }
    }
    if !DistinctWarehouseIds(ws) { return false, table; }
    ok, out := true, UpsertAll(table, WarehouseEntries(tenant, ws));
  }

  predicate Insertable(table: set<StockRow>, warehouses: map<RowKey, string>, tenant: int, req: SnapshotRequest, s: StockInput) {
    && StockColumnsFit(s)
    && (tenant, s.warehouseId) in warehouses
    && forall r :: r in table ==> !SameCell(r, StockRowOf(tenant, req, s))
  }

  /** The first i stock rows were accepted, and out is the table with them. */
  ghost predicate Streamed(req: SnapshotRequest, tenant: int, table: set<StockRow>, warehouses: map<RowKey, string>, i: nat, out: set<StockRow>)
    requires i <= |req.stocks|
  {
    && (forall j :: 0 <= j < i ==> Insertable(table, warehouses, tenant, req, req.stocks[j]))
    && DistinctCells(req.stocks[..i])
    && (forall r :: r in out <==> r in table || exists j :: 0 <= j < i && r == StockRowOf(tenant, req, req.stocks[j]))
  }

  predicate CellTakenIn(out: set<StockRow>, row: StockRow) {
    exists r :: r in out && SameCell(r, row)
  }

  lemma {:induction false} StreamNext(req: SnapshotRequest, tenant: int, table: set<StockRow>, warehouses: map<RowKey, string>, i: nat, out: set<StockRow>)
    requires i < |req.stocks| && Streamed(req, tenant, table, warehouses, i, out)
    requires var s := req.stocks[i];
      StockColumnsFit(s) && (tenant, s.warehouseId) in warehouses && !CellTakenIn(out, StockRowOf(tenant, req, s))
    ensures Streamed(req, tenant, table, warehouses, i + 1, out + {StockRowOf(tenant, req, req.stocks[i])})
  {
    var s, row := req.stocks[i], StockRowOf(tenant, req, req.stocks[i]);
    hide StockColumnsFit;
    forall j | 0 <= j < i ensures !(req.stocks[j].sku1c == s.sku1c && req.stocks[j].warehouseId == s.warehouseId) {
      assert StockRowOf(tenant, req, req.stocks[j]) in out;
    }
    assert Insertable(table, warehouses, tenant, req, s);
    hide Insertable, SameCell, StockRowOf;
    assert forall j :: 0 <= j < i ==> req.stocks[..i][j] == req.stocks[j];
  }

  lemma {:induction false} StreamRefused(req: SnapshotRequest, tenant: int, table: set<StockRow>, warehouses: map<RowKey, string>, i: nat, out: set<StockRow>)
    requires i < |req.stocks| && Streamed(req, tenant, table, warehouses, i, out)
    requires var s := req.stocks[i];
      !StockColumnsFit(s) || (tenant, s.warehouseId) !in warehouses || CellTakenIn(out, StockRowOf(tenant, req, s))
    ensures !StocksStorable(req, tenant, table, warehouses)
  {
    var s, row := req.stocks[i], StockRowOf(tenant, req, req.stocks[i]);
    hide StockColumnsFit;
    assert s in req.stocks;
    if CellTakenIn(out, row) {
      var r :| r in out && SameCell(r, row);
      if r !in table {
        var j :| 0 <= j < i && r == StockRowOf(tenant, req, req.stocks[j]);
      }
    }
  }

  lemma {:induction false} StreamEnds(req: SnapshotRequest, tenant: int, table: set<StockRow>, warehouses: map<RowKey, string>, out: set<StockRow>)
    requires Streamed(req, tenant, table, warehouses, |req.stocks|, out)
    ensures StocksStorable(req, tenant, table, warehouses) && out == table + RowsOfStocks(tenant, req)
  {
    hide StockColumnsFit;
    assert req.stocks[..|req.stocks|] == req.stocks;
    forall s | s in req.stocks ensures Insertable(table, warehouses, tenant, req, s) && StockRowOf(tenant, req, s) in out {
      var j :| 0 <= j < |req.stocks| && req.stocks[j] == s;
    }
    forall r | r in out ensures r in table + RowsOfStocks(tenant, req) {}
    hide StockRowOf, SameCell;
  }

  /** COPY into tmp_stocks and the insert with its unique and foreign keys. */
  method StreamStocks(req: SnapshotRequest, tenant: int, table: set<StockRow>, warehouses: map<RowKey, string>)
    returns (ok: bool, out: set<StockRow>)
    ensures ok <==> StocksStorable(req, tenant, table, warehouses)
    ensures ok ==> out == table + RowsOfStocks(tenant, req)
  {
    out := table;
    assert Streamed(req, tenant, table, warehouses, 0, out);
    hide *;
    for i := 0 to |req.stocks|
      invariant Streamed(req, tenant, table, warehouses, i, out)
    {
      var s := req.stocks[i];
      var row := StockRowOf(tenant, req, s);
      if !StockColumnsFit(s) || (tenant, s.warehouseId) !in warehouses || CellTakenIn(out, row) {
        StreamRefused(req, tenant, table, warehouses, i, out);
        return false, table;
      }
      StreamNext(req, tenant, table, warehouses, i, out);
      out := out + {row};
    }
    StreamEnds(req, tenant, table, warehouses, out);
    ok := true;
  }

  function BatchWith(batch: map<RowKey, real>, tenant: int, c: CostInput): map<RowKey, real> {
    if HasAverage(c) then batch[BatchEntry(tenant, c).0 := BatchEntry(tenant, c).1] else batch
  }

  function SupplierWith(supplier: map<RowKey, SupplierRow>, tenant: int, c: CostInput): map<RowKey, SupplierRow> {
    if HasPurchase(c) then supplier[SupplierEntry(tenant, c).0 := SupplierEntry(tenant, c).1] else supplier
  }

  /** The statements for one cost. */
  method WriteCost(c: CostInput, tenant: int, batch: map<RowKey, real>, supplier: map<RowKey, SupplierRow>, vt: TimeParser)
    returns (ok: bool, batch2: map<RowKey, real>, supplier2: map<RowKey, SupplierRow>)
    ensures ok <==> CostStorable(c, vt)
    ensures ok ==> batch2 == BatchWith(batch, tenant, c) && supplier2 == SupplierWith(supplier, tenant, c)
  {
    batch2, supplier2 := batch, supplier;
    if c.batchAvgCost.Some? && c.batchAvgCost.value > 0.0 {
      if |c.sku1c| > 128 { return false, batch, supplier; }
      batch2 := batch2[(tenant, c.sku1c) := c.batchAvgCost.value];
    }
    if c.purchaseCost.Some? || c.dealerCost.Some? {
      if c.purchaseCost.Some? {
        if |c.sku1c| > 128 || |ValueOr(c.purchaseSource)| > 32 || !vt(ValueOr(c.purchaseSourceAt)) {
          return false, batch, supplier;
        }
        supplier2 := supplier2[(tenant, c.sku1c) := SupplierRow(c.purchaseCost.value, ValueOr(c.purchaseSource),
                                                                ValueOr(c.purchaseSourceAt), NumberOr0(c.dealerCost))];
      }
    }
    ok := true;
  }

  lemma {:induction false} CostsStorableStep(costs: seq<CostInput>, i: nat, vt: TimeParser)
    requires i < |costs|
    ensures CostsStorable(costs[..i + 1], vt) <==> CostsStorable(costs[..i], vt) && CostStorable(costs[i], vt)
    ensures CostsStorable(costs, vt) ==> CostStorable(costs[i], vt)
  {
    hide CostStorable;
    assert costs[..i + 1] == costs[..i] + [costs[i]];
    assert costs[i] in costs;
  }

  /** The loop over req.costs. */
  method WriteCosts(costs: seq<CostInput>, tenant: int, batch: map<RowKey, real>, supplier: map<RowKey, SupplierRow>, vt: TimeParser)
    returns (ok: bool, batch2: map<RowKey, real>, supplier2: map<RowKey, SupplierRow>)
    ensures ok <==> CostsStorable(costs, vt)
    ensures ok ==> batch2 == BatchAfter(batch, tenant, costs) && supplier2 == SupplierAfter(supplier, tenant, costs)
  {
    batch2, supplier2 := batch, supplier;
    NoCosts(tenant, batch, supplier);
    assert costs[..0] == [] && CostsStorable([], vt);
    hide *;
    for i := 0 to |costs|
      invariant CostsStorable(costs[..i], vt)
      invariant batch2 == BatchAfter(batch, tenant, costs[..i])
      invariant supplier2 == SupplierAfter(supplier, tenant, costs[..i])
    {
      CostsStorableStep(costs, i, vt);
      CostsSnoc(costs, i, tenant, batch, supplier);
      ok, batch2, supplier2 := WriteCost(costs[i], tenant, batch2, supplier2, vt);
      if !ok { return false, batch, supplier; }
    }
    assert costs[..|costs|] == costs;
    ok := true;
  }

  lemma {:induction false} NoCosts(tenant: int, batch: map<RowKey, real>, supplier: map<RowKey, SupplierRow>)
    ensures BatchAfter(batch, tenant, []) == batch && SupplierAfter(supplier, tenant, []) == supplier
  {
  }

  function BatchAfter(batch: map<RowKey, real>, tenant: int, costs: seq<CostInput>): map<RowKey, real> {
    UpsertAll(batch, BatchEntries(tenant, costs))
  }

  function SupplierAfter(supplier: map<RowKey, SupplierRow>, tenant: int, costs: seq<CostInput>): map<RowKey, SupplierRow> {
    UpsertAll(supplier, SupplierEntries(tenant, costs))
  }

  lemma {:induction false} CostsSnoc(costs: seq<CostInput>, i: nat, tenant: int, batch: map<RowKey, real>, supplier: map<RowKey, SupplierRow>)
    requires i < |costs|
    ensures BatchAfter(batch, tenant, costs[..i + 1]) == BatchWith(BatchAfter(batch, tenant, costs[..i]), tenant, costs[i])
    ensures SupplierAfter(supplier, tenant, costs[..i + 1]) == SupplierWith(SupplierAfter(supplier, tenant, costs[..i]), tenant, costs[i])
  {
    hide UpsertAll, BatchEntries, SupplierEntries, BatchEntry, SupplierEntry, HasAverage, HasPurchase;
    EntriesAppend(tenant, costs, i);
    UpsertSnoc(batch, BatchEntries(tenant, costs[..i]), BatchEntry(tenant, costs[i]));
    UpsertSnoc(supplier, SupplierEntries(tenant, costs[..i]), SupplierEntry(tenant, costs[i]));
  }

  lemma {:induction false} WarehouseKeys(m: map<RowKey, string>, tenant: int, ws: seq<WarehouseInput>)
    ensures forall k: RowKey :: k in UpsertAll(m, WarehouseEntries(tenant, ws)) <==> k in m || (k.0 == tenant && k.1 in WarehouseIds(ws))
  {
    UpsertKeys(m, WarehouseEntries(tenant, ws));
    var es := WarehouseEntries(tenant, ws);
    forall k: RowKey ensures (exists e :: e in es && e.0 == k) <==> (k.0 == tenant && k.1 in WarehouseIds(ws)) {
      if e :| e in es && e.0 == k {
        var i :| 0 <= i < |es| && es[i] == e;
        assert ws[i] in ws;
      }
      if k.0 == tenant && k.1 in WarehouseIds(ws) {
        var w :| w in ws && w.warehouseId == k.1;
        var i :| 0 <= i < |ws| && ws[i] == w;
        assert es[i] in es;
      }
    }
  }
}
