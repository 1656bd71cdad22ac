/** What a snapshot holds, said of the pulled records and the warehouse filter alone: which
    warehouses, which stock lines and costs, and every field of theirs. */
module SnapshotContents {
  import opened Sequences
  import opened Snapshot
  import opened Ka2Pull
  import opened SnapshotBuild
  import opened SnapshotFacts

  /** The head of the request. */
  lemma {:induction false} HeadOfRequest(req: SnapshotRequest, period: string, pull: PullResult, offers: map<string, string>,
                        isPreview: bool, allowed: set<string>)
    requires IsSnapshot(req, period, pull, offers, isPreview, allowed)
    ensures req.measuredAt == period + "Z" && req.mode == "FULL"
    ensures var plain := if isPreview then "preview-" + period else "odata-" + period;
      |req.batchId| == |plain| && forall i :: 0 <= i < |plain| ==> req.batchId[i] == if plain[i] == ':' then '-' else plain[i]
  {
    hide HasStockList, HasCostList, WarehouseLines, AllowedRows;
  }

  // ---- warehouses ----

  /** The request lists exactly the pulled warehouses with a key that the filter lets pass,
      in order, each under its own description; an empty filter lets all pass. */
  lemma {:induction false} WarehousesOfRequest(req: SnapshotRequest, period: string, pull: PullResult, offers: map<string, string>,
                              isPreview: bool, allowed: set<string>) returns (at: seq<nat>)
    requires IsSnapshot(req, period, pull, offers, isPreview, allowed)
    ensures |at| == |req.warehouses| && forall k, l :: 0 <= k < l < |at| ==> at[k] < at[l]
    ensures forall k :: 0 <= k < |at| ==>
      && at[k] < |pull.warehouses|
      && req.warehouses[k].warehouseId == pull.warehouses[at[k]].refKey
      && req.warehouses[k].warehouseName == pull.warehouses[at[k]].description
    ensures forall i: nat :: i in at <==>
      i < |pull.warehouses| && pull.warehouses[i].refKey != "" && (allowed != {} ==> pull.warehouses[i].refKey in allowed)
  {
    at := FilterPicks(pull.warehouses, w => KeepsWarehouse(allowed, w));
    hide HasStockList, HasCostList, AllowedRows, Filter;
  }

  // ---- stocks ----

  /** Truncation toward zero. */
  lemma {:induction false} TruncIsTowardZero(q: real)
    ensures q >= 0.0 ==> 0.0 <= Trunc(q) as real <= q < (Trunc(q) + 1) as real
    ensures q < 0.0 ==> (Trunc(q) - 1) as real < q <= Trunc(q) as real <= 0.0
  {
    var n := if q >= 0.0 then q else -q;
    assert (n.Floor as real) <= n < (n.Floor + 1) as real;
  }

  /** Some line of the request is for the product and the warehouse. */
  ghost predicate HasLine(stocks: seq<StockInput>, sku: string, warehouse: string) {
    exists i :: 0 <= i < |stocks| && stocks[i].sku1c == sku && stocks[i].warehouseId == warehouse
  }

  /** The filter on stock rows. */
  lemma {:induction false} RowsLetThrough(rows: seq<StockBalance>, allowed: set<string>, s: StockBalance)
    ensures s in AllowedRows(rows, allowed) <==>
      s in rows && s.nomenclatureKey != "" && (allowed != {} ==> s.warehouseKey in allowed)
  {
    var kept := AllowedRows(rows, allowed);
    if s in kept {
      var i :| 0 <= i < |kept| && kept[i] == s;
    }
    if s in rows && KeepsStock(allowed, s) {
      var i :| 0 <= i < |rows| && rows[i] == s;
    }
  }

  /** A line belongs to a pulled row with a product whose warehouse the filter lets pass. */
  ghost predicate FromPulledRow(line: StockInput, rows: seq<StockBalance>, allowed: set<string>) {
    && line.sku1c != "" && (allowed != {} ==> line.warehouseId in allowed)
    && exists s :: s in rows && InCell(line.sku1c, line.warehouseId, s)
  }

  lemma {:induction false} LineFromRow(rows: seq<StockBalance>, ws: seq<Warehouse>, offers: map<string, string>, allowed: set<string>, key: string)
    requires key in StockKeys(AllowedRows(rows, allowed))
    ensures FromPulledRow(StockLine(AllowedRows(rows, allowed), ws, offers, key), rows, allowed)
  {
    var f := FirstRow(AllowedRows(rows, allowed), key);
    RowsLetThrough(rows, allowed, f);
    assert InCell(f.nomenclatureKey, f.warehouseKey, f);
    hide AllowedRows, StockKeys, FirstRow, Available, OfferOf, NameOf;
  }

  /** What a line says besides the amount: nothing is reserved, the offer is the one on record
      unless it is empty, and the name is that of the first pulled warehouse with this key,
      whether the filter lets it pass or not. */
  ghost predicate DescribesWarehouse(line: StockInput, ws: seq<Warehouse>, offers: map<string, string>) {
    && line.reserved == 0
    && (line.offerId.Some? <==> line.sku1c in offers && offers[line.sku1c] != "")
    && (line.offerId.Some? ==> line.offerId.value == offers[line.sku1c])
    && (line.warehouseName.None? ==> forall k :: 0 <= k < |ws| ==> ws[k].refKey != line.warehouseId)
    && (line.warehouseName.Some? ==> FirstNamed(ws, line.warehouseId, line.warehouseName.value))
  }

  ghost predicate FirstNamed(ws: seq<Warehouse>, id: string, name: string) {
    exists k :: 0 <= k < |ws| && ws[k].refKey == id && ws[k].description == name && forall j :: 0 <= j < k ==> ws[j].refKey != id
  }

  lemma {:induction false} NameIsFirst(ws: seq<Warehouse>, id: string)
    ensures NameOf(ws, id).None? ==> forall k :: 0 <= k < |ws| ==> ws[k].refKey != id
    ensures NameOf(ws, id).Some? ==> FirstNamed(ws, id, NameOf(ws, id).value)
  {
    if ws != [] && ws[0].refKey != id {
      NameIsFirst(ws[1..], id);
      assert forall k :: 0 < k < |ws| ==> ws[k] == ws[1..][k - 1];
      if NameOf(ws, id).Some? {
        var tail, name := ws[1..], NameOf(ws, id).value;
        var k :| 0 <= k < |tail| && tail[k].refKey == id && tail[k].description == name && forall j :: 0 <= j < k ==> tail[j].refKey != id;
        assert ws[k + 1] == tail[k];
      }
    }
  }

  lemma {:induction false} LineDescribes(rows: seq<StockBalance>, ws: seq<Warehouse>, offers: map<string, string>, key: string)
    requires key in StockKeys(rows)
    ensures DescribesWarehouse(StockLine(rows, ws, offers, key), ws, offers)
  {
    NameIsFirst(ws, FirstRow(rows, key).warehouseKey);
    hide Available, FirstRow, StockKeys, NameOf, FirstNamed;
  }

  /** Every line belongs to a pulled row of an allowed warehouse and describes it. */
  lemma {:induction false} LinesOfRequest(req: SnapshotRequest, period: string, pull: PullResult, offers: map<string, string>,
                         isPreview: bool, allowed: set<string>)
    requires IsSnapshot(req, period, pull, offers, isPreview, allowed)
    ensures forall i :: 0 <= i < |req.stocks| ==>
      FromPulledRow(req.stocks[i], pull.stocks, allowed) && DescribesWarehouse(req.stocks[i], pull.warehouses, offers)
  {
    hide WarehouseLines, HasCostList, StockKeys, StockLine, AllowedRows, FromPulledRow, DescribesWarehouse;
    var rows := AllowedRows(pull.stocks, allowed);
    var order :| IsStockList(req.stocks, order, rows, pull.warehouses, offers);
    forall i | 0 <= i < |req.stocks|
      ensures FromPulledRow(req.stocks[i], pull.stocks, allowed) && DescribesWarehouse(req.stocks[i], pull.warehouses, offers)
    {
      LineFromRow(pull.stocks, pull.warehouses, offers, allowed, order[i]);
      LineDescribes(rows, pull.warehouses, offers, order[i]);
    }
  }

  /** Rows of a cell that the filter lets pass all pass. */
  lemma {:induction false} CellUnfiltered(rows: seq<StockBalance>, allowed: set<string>, line: StockInput)
    requires line.sku1c != "" && (allowed != {} ==> line.warehouseId in allowed)
    requires StandsForCell(line, AllowedRows(rows, allowed))
    ensures StandsForCell(line, rows)
  {
    var sku, warehouse := line.sku1c, line.warehouseId;
    var keeps := s => KeepsStock(allowed, s);
    var s :| s in AllowedRows(rows, allowed) && InCell(sku, warehouse, s);
    RowsLetThrough(rows, allowed, s);
    SumIntFilter(rows, keeps, s => CellShare(sku, warehouse, s));
    SumRealFilter(rows, keeps, s => CellQuantity(sku, warehouse, s));
    SumIntFilter(rows, keeps, s => CellCount(sku, warehouse, s));
    hide SumInt, SumReal, Filter, Trunc;
  }

  lemma {:induction false} FilteredStay(rows: seq<StockBalance>, allowed: set<string>)
    requires NoBar(rows) && NonNegative(rows)
    ensures NoBar(AllowedRows(rows, allowed)) && NonNegative(AllowedRows(rows, allowed))
  {
    forall s | s in AllowedRows(rows, allowed) ensures s in rows { RowsLetThrough(rows, allowed, s); }
    hide AllowedRows;
  }

  /** Conservation, per product and warehouse of the pull.  A line stands for all pulled rows
      of its product and warehouse, and the pairs that have a line are exactly those of the
      pulled rows that have a product and a warehouse the filter lets pass. */
  lemma {:induction false} StocksOfRequest(req: SnapshotRequest, period: string, pull: PullResult, offers: map<string, string>,
                          isPreview: bool, allowed: set<string>)
    requires IsSnapshot(req, period, pull, offers, isPreview, allowed)
    requires NoBar(pull.stocks) && NonNegative(pull.stocks)
    ensures forall i :: 0 <= i < |req.stocks| ==> StandsForCell(req.stocks[i], pull.stocks)
    ensures forall sku, warehouse :: HasLine(req.stocks, sku, warehouse) <==>
      && sku != "" && (allowed != {} ==> warehouse in allowed)
      && exists s :: s in pull.stocks && s.nomenclatureKey == sku && s.warehouseKey == warehouse
  {
    var rows := AllowedRows(pull.stocks, allowed);
    LinesOfRequest(req, period, pull, offers, isPreview, allowed);
    FilteredStay(pull.stocks, allowed);
    hide WarehouseLines, HasCostList, HasStockList, AllowedRows, StandsForCell, DescribesWarehouse, NoBar, NonNegative;
    CellsConserve(req.stocks, rows, pull.warehouses, offers);
    forall i | 0 <= i < |req.stocks| ensures StandsForCell(req.stocks[i], pull.stocks) {
      assert FromPulledRow(req.stocks[i], pull.stocks, allowed);
      CellUnfiltered(pull.stocks, allowed, req.stocks[i]);
    }
    forall s | s in pull.stocks && s.nomenclatureKey != "" && (allowed != {} ==> s.warehouseKey in allowed)
      ensures HasLine(req.stocks, s.nomenclatureKey, s.warehouseKey)
    {
      RowsLetThrough(pull.stocks, allowed, s);
    }
    forall sku, warehouse | HasLine(req.stocks, sku, warehouse)
      ensures sku != "" && (allowed != {} ==> warehouse in allowed)
      ensures exists s :: s in pull.stocks && s.nomenclatureKey == sku && s.warehouseKey == warehouse
    {
      var i :| 0 <= i < |req.stocks| && req.stocks[i].sku1c == sku && req.stocks[i].warehouseId == warehouse;
      assert FromPulledRow(req.stocks[i], pull.stocks, allowed);
    }
  }

  // ---- costs ----

  /** Row i is the last one that gives the analytic key a product, namely this one. */
  ghost predicate LastNaming(analytics: seq<AnalyticKey>, key: string, sku: string, i: int) {
    && 0 <= i < |analytics| && analytics[i].refKey == key != "" && analytics[i].nomenclatureKey == sku != ""
    && forall j :: i < j < |analytics| && analytics[j].refKey == key ==> analytics[j].nomenclatureKey == ""
  }

  ghost predicate Names(analytics: seq<AnalyticKey>, key: string, sku: string) {
    exists i :: LastNaming(analytics, key, sku, i)
  }

  lemma {:induction false} LastNamingStep(analytics: seq<AnalyticKey>, key: string, sku: string, i: int)
    requires analytics != []
    ensures var n := |analytics| - 1;
      LastNaming(analytics, key, sku, i) <==>
        if i == n then analytics[n].refKey == key != "" && analytics[n].nomenclatureKey == sku != ""
        else LastNaming(analytics[..n], key, sku, i) && (analytics[n].refKey == key ==> analytics[n].nomenclatureKey == "")
  {
    var n := |analytics| - 1;
    assert forall j :: 0 <= j < n ==> analytics[..n][j] == analytics[j];
  }

  lemma {:induction false} NamesIffMapped(analytics: seq<AnalyticKey>, key: string, sku: string)
    ensures Names(analytics, key, sku) <==> key in AnalitToNom(analytics) && AnalitToNom(analytics)[key] == sku
  {
    if analytics != [] {
      var n := |analytics| - 1;
      NamesIffMapped(analytics[..n], key, sku);
      forall i ensures LastNaming(analytics, key, sku, i) <==>
        if i == n then analytics[n].refKey == key != "" && analytics[n].nomenclatureKey == sku != ""
        else LastNaming(analytics[..n], key, sku, i) && (analytics[n].refKey == key ==> analytics[n].nomenclatureKey == "")
      {
        LastNamingStep(analytics, key, sku, i);
      }
      hide LastNaming;
      if Names(analytics[..n], key, sku) {
        var i :| LastNaming(analytics[..n], key, sku, i);
        assert i != n by { NotBeyond(analytics[..n], key, sku, i); }
        assert LastNaming(analytics, key, sku, i) <==> (analytics[n].refKey == key ==> analytics[n].nomenclatureKey == "");
      }
      assert LastNaming(analytics, key, sku, n) <==> analytics[n].refKey == key != "" && analytics[n].nomenclatureKey == sku != "";
    } else {
      assert forall i :: !LastNaming(analytics, key, sku, i);
    }
  }

  lemma {:induction false} NotBeyond(analytics: seq<AnalyticKey>, key: string, sku: string, i: int)
    requires LastNaming(analytics, key, sku, i)
    ensures 0 <= i < |analytics|
  {
  }

  /** Cost and quantity of the pulled cost rows whose analytic key names the product. */
  ghost function CostOf(pull: PullResult, sku: string): real {
    SumReal(pull.costs, (c: CostBalance) => if Names(pull.analytics, c.analyticKey, sku) then c.cost else 0.0)
  }

  ghost function QuantityOf(pull: PullResult, sku: string): real {
    SumReal(pull.costs, (c: CostBalance) => if Names(pull.analytics, c.analyticKey, sku) then c.quantity else 0.0)
  }

  lemma {:induction false} TotalsOfProduct(pull: PullResult, sku: string)
    requires sku != ""
    ensures CostOf(pull, sku) == TotalCost(pull.costs, AnalitToNom(pull.analytics), sku)
    ensures QuantityOf(pull, sku) == TotalQty(pull.costs, AnalitToNom(pull.analytics), sku)
  {
    var nom := AnalitToNom(pull.analytics);
    forall c: CostBalance ensures Names(pull.analytics, c.analyticKey, sku) <==> ForSku(nom, sku, c) {
      NamesIffMapped(pull.analytics, c.analyticKey, sku);
    }
    hide Names, ForSku, AnalitToNom, SumReal;
    SumRealSame(pull.costs, (c: CostBalance) => if Names(pull.analytics, c.analyticKey, sku) then c.cost else 0.0,
                c => if ForSku(nom, sku, c) then c.cost else 0.0);
    SumRealSame(pull.costs, (c: CostBalance) => if Names(pull.analytics, c.analyticKey, sku) then c.quantity else 0.0,
                c => if ForSku(nom, sku, c) then c.quantity else 0.0);
  }

  /** Row i offers the product at the lowest positive price, and no earlier row does. */
  ghost predicate FirstCheapest(suppliers: seq<SupplierPrice>, sku: string, i: int) {
    && 0 <= i < |suppliers| && suppliers[i].nomenclatureKey == sku && suppliers[i].price > 0.0
    && forall j :: 0 <= j < |suppliers| && suppliers[j].nomenclatureKey == sku && suppliers[j].price > 0.0 ==>
         if j < i then suppliers[i].price < suppliers[j].price else suppliers[i].price <= suppliers[j].price
  }

  lemma {:induction false} BestIsFirstCheapest(suppliers: seq<SupplierPrice>, sku: string) returns (i: int)
    ensures var b := BestPurchase(suppliers, sku);
      if b.price > 0.0 then FirstCheapest(suppliers, sku, i) && b.price == suppliers[i].price && b.at == suppliers[i].period
      else b.price == 0.0 && forall j :: 0 <= j < |suppliers| && suppliers[j].nomenclatureKey == sku ==> suppliers[j].price <= 0.0
  {
    i := -1;
    if suppliers != [] {
      var n := |suppliers| - 1;
      i := BestIsFirstCheapest(suppliers[..n], sku);
      assert forall j :: 0 <= j < n ==> suppliers[..n][j] == suppliers[j];
      if Offers(sku, suppliers[n]) && BestPurchase(suppliers, sku).price != BestPurchase(suppliers[..n], sku).price {
        i := n;
      }
    }
  }

  /** What a cost line says: the average is the cost of the product over its quantity, and the
      purchase is its cheapest offer, the first of several; each absent exactly when there is
      none. */
  ghost predicate CostLineOf(line: CostInput, pull: PullResult) {
    var sku := line.sku1c;
    && (line.batchAvgCost.Some? <==> QuantityOf(pull, sku) > 0.0 && CostOf(pull, sku) > 0.0)
    && (line.batchAvgCost.Some? ==> line.batchAvgCost.value * QuantityOf(pull, sku) == CostOf(pull, sku))
    && (line.purchaseCost.Some? <==> Offered(pull.suppliers, sku))
    && (line.purchaseCost.Some? ==>
          exists i :: FirstCheapest(pull.suppliers, sku, i) && line.purchaseCost.value == pull.suppliers[i].price
            && line.purchaseSourceAt == Some(pull.suppliers[i].period))
    && line.purchaseSource == (if line.purchaseCost.Some? then Some("supplier_register") else None)
    && (line.purchaseCost.None? ==> line.purchaseSourceAt == None)
    && line.dealerCost == None
  }

  ghost predicate Offered(suppliers: seq<SupplierPrice>, sku: string) {
    exists i :: 0 <= i < |suppliers| && suppliers[i].nomenclatureKey == sku && suppliers[i].price > 0.0
  }

  lemma {:induction false} CostLineIs(pull: PullResult, sku: string)
    requires sku != ""
    ensures CostLineOf(CostLine(pull.costs, AnalitToNom(pull.analytics), pull.suppliers, sku), pull)
  {
    TotalsOfProduct(pull, sku);
    AverageTimesQuantity(pull.costs, AnalitToNom(pull.analytics), pull.suppliers, sku);
    var i := BestIsFirstCheapest(pull.suppliers, sku);
    hide CostOf, QuantityOf, TotalCost, TotalQty, AnalitToNom, BestPurchase, AverageOf;
  }

  /** Some pulled cost row belongs to the product. */
  ghost predicate HasCostRow(pull: PullResult, sku: string) {
    exists c :: c in pull.costs && Names(pull.analytics, c.analyticKey, sku)
  }

  lemma {:induction false} CostRowsOfProduct(pull: PullResult, sku: string)
    ensures sku in CostSkus(pull.costs, AnalitToNom(pull.analytics)) <==> HasCostRow(pull, sku)
    ensures HasCostRow(pull, sku) ==> sku != ""
  {
    forall c: CostBalance ensures Names(pull.analytics, c.analyticKey, sku) <==>
      c.analyticKey in AnalitToNom(pull.analytics) && AnalitToNom(pull.analytics)[c.analyticKey] == sku
    {
      NamesIffMapped(pull.analytics, c.analyticKey, sku);
    }
    hide AnalitToNom;
  }

  lemma {:induction false} LineListed(order: seq<string>, costs: seq<CostBalance>, nom: map<string, string>, suppliers: seq<SupplierPrice>, line: CostInput)
    ensures line in CostLinesFor(order, costs, nom, suppliers) <==>
      line.sku1c in order && line == CostLine(costs, nom, suppliers, line.sku1c) && KeepsCostLine(line)
  {
    var lines := Map(order, sku => CostLine(costs, nom, suppliers, sku));
    CostLineKey(costs, nom, suppliers, line.sku1c);
    forall k ensures CostLine(costs, nom, suppliers, k).sku1c == k { SkuOfLine(costs, nom, suppliers, k); }
    hide CostLine, KeepsCostLine;
    if line in CostLinesFor(order, costs, nom, suppliers) {
      var kept := Filter(lines, KeepsCostLine);
      var i :| 0 <= i < |kept| && kept[i] == line;
      var j :| 0 <= j < |lines| && lines[j] == line;
    }
    if line.sku1c in order && line == CostLine(costs, nom, suppliers, line.sku1c) && KeepsCostLine(line) {
      var j :| 0 <= j < |order| && order[j] == line.sku1c;
      assert lines[j] == line;
    }
  }

  lemma {:induction false} SkuOfLine(costs: seq<CostBalance>, nom: map<string, string>, suppliers: seq<SupplierPrice>, sku: string)
    ensures CostLine(costs, nom, suppliers, sku).sku1c == sku
  {
    hide TotalCost, TotalQty, AverageOf, BestPurchase;
  }

  ghost predicate HasCostLine(costs: seq<CostInput>, sku: string) {
    exists i :: 0 <= i < |costs| && costs[i].sku1c == sku
  }

  lemma {:induction false} LineKept(pull: PullResult, sku: string)
    requires sku != ""
    ensures KeepsCostLine(CostLine(pull.costs, AnalitToNom(pull.analytics), pull.suppliers, sku)) <==>
      (QuantityOf(pull, sku) > 0.0 && CostOf(pull, sku) > 0.0) || Offered(pull.suppliers, sku)
  {
    SkuOfLine(pull.costs, AnalitToNom(pull.analytics), pull.suppliers, sku);
    CostLineIs(pull, sku);
    hide CostLine, AnalitToNom, QuantityOf, CostOf, Offered, FirstCheapest;
  }

  lemma {:induction false} SomeOrder(req: SnapshotRequest, period: string, pull: PullResult, offers: map<string, string>,
                    isPreview: bool, allowed: set<string>) returns (order: seq<string>)
    requires IsSnapshot(req, period, pull, offers, isPreview, allowed)
    ensures forall k :: k in order <==> k in CostSkus(pull.costs, AnalitToNom(pull.analytics))
    ensures req.costs == CostLinesFor(order, pull.costs, AnalitToNom(pull.analytics), pull.suppliers)
  {
    hide WarehouseLines, HasStockList, AllowedRows, CostSkus, AnalitToNom, CostLinesFor;
    order :| IsCostList(req.costs, order, pull.costs, AnalitToNom(pull.analytics), pull.suppliers);
  }

  /** A product has a line exactly when it has cost rows and an average or a purchase, and the
      line says what they are. */
  lemma {:induction false} CostsOfRequest(req: SnapshotRequest, period: string, pull: PullResult, offers: map<string, string>,
                         isPreview: bool, allowed: set<string>)
    requires IsSnapshot(req, period, pull, offers, isPreview, allowed)
    ensures forall i :: 0 <= i < |req.costs| ==> CostLineOf(req.costs[i], pull)
    ensures forall sku :: HasCostLine(req.costs, sku) <==>
      HasCostRow(pull, sku) && ((QuantityOf(pull, sku) > 0.0 && CostOf(pull, sku) > 0.0) || Offered(pull.suppliers, sku))
  {
    hide WarehouseLines, HasStockList, AllowedRows, CostSkus, AnalitToNom, CostLine, CostLinesFor, HasCostRow, QuantityOf, CostOf,
         Offered, FirstCheapest, HasCostList;
    var nom := AnalitToNom(pull.analytics);
    var order := SomeOrder(req, period, pull, offers, isPreview, allowed);
    forall line ensures line in req.costs <==>
      line.sku1c in order && line == CostLine(pull.costs, nom, pull.suppliers, line.sku1c) && KeepsCostLine(line)
    {
      LineListed(order, pull.costs, nom, pull.suppliers, line);
    }
    hide IsSnapshot, IsCostList, KeepsCostLine;
    forall i | 0 <= i < |req.costs| ensures CostLineOf(req.costs[i], pull) {
      assert req.costs[i] in req.costs;
      CostRowsOfProduct(pull, req.costs[i].sku1c);
      CostLineIs(pull, req.costs[i].sku1c);
    }
    forall sku ensures HasCostLine(req.costs, sku) <==>
      HasCostRow(pull, sku) && ((QuantityOf(pull, sku) > 0.0 && CostOf(pull, sku) > 0.0) || Offered(pull.suppliers, sku))
    {
      CostRowsOfProduct(pull, sku);
      if HasCostRow(pull, sku) {
        SkuOfLine(pull.costs, nom, pull.suppliers, sku);
        LineKept(pull, sku);
      }
    }
  }
}
