/** pull_to_snapshot: aggregation of a pull into a snapshot request. */
module SnapshotBuild {
  import opened Sequences
  import opened Snapshot
  import opened Ka2Pull

  /** static_cast<long long>: truncation toward zero. */
  function Trunc(q: real): int {
    if q >= 0.0 then q.Floor else -((-q).Floor)
  }

  predicate IsAllowed(allowed: set<string>, id: string) {
    allowed == {} || id in allowed
  }

  function ReplaceColons(s: string): (r: string)
    ensures |r| == |s|
    ensures forall i :: 0 <= i < |s| ==> r[i] == if s[i] == ':' then '-' else s[i]
  {
    seq(|s|, i requires 0 <= i < |s| => if s[i] == ':' then '-' else s[i])
  }

  // ---- 1. warehouses ----

  predicate KeepsWarehouse(allowed: set<string>, w: Warehouse) {
    w.refKey != "" && IsAllowed(allowed, w.refKey)
  }

  function WarehouseLines(ws: seq<Warehouse>, allowed: set<string>): seq<WarehouseInput> {
    Map(Filter(ws, w => KeepsWarehouse(allowed, w)), (w: Warehouse) => WarehouseInput(w.refKey, w.description))
  }

  lemma {:induction false} WarehouseLinesAppend(ws: seq<Warehouse>, i: nat, allowed: set<string>)
    requires i < |ws|
    ensures WarehouseLines(ws[..i + 1], allowed)
         == if KeepsWarehouse(allowed, ws[i]) then WarehouseLines(ws[..i], allowed) + [WarehouseInput(ws[i].refKey, ws[i].description)]
            else WarehouseLines(ws[..i], allowed)
  {
    var p := w => KeepsWarehouse(allowed, w);
    hide Map, Filter, KeepsWarehouse;
    FilterAppend(ws, i, p);
    MapAppend(Filter(ws[..i], p), ws[i], (w: Warehouse) => WarehouseInput(w.refKey, w.description));
  }

  // ---- 2. stocks ----

  predicate KeepsStock(allowed: set<string>, s: StockBalance) {
    s.nomenclatureKey != "" && IsAllowed(allowed, s.warehouseKey)
  }

  /** The rows the stock loop does not skip. */
  function AllowedRows(rows: seq<StockBalance>, allowed: set<string>): seq<StockBalance> {
    Filter(rows, s => KeepsStock(allowed, s))
  }

  lemma {:induction false} AllowedAppend(rows: seq<StockBalance>, i: nat, allowed: set<string>)
    requires i < |rows|
    ensures AllowedRows(rows[..i + 1], allowed)
         == if KeepsStock(allowed, rows[i]) then AllowedRows(rows[..i], allowed) + [rows[i]] else AllowedRows(rows[..i], allowed)
  {
    FilterAppend(rows, i, s => KeepsStock(allowed, s));
  }

  function StockKey(s: StockBalance): string {
    s.nomenclatureKey + "|" + s.warehouseKey
  }

  function StockKeys(rows: seq<StockBalance>): set<string> {
    set s | s in rows :: StockKey(s)
  }

  /** The row that initialises the accumulator of a key. */
  function FirstRow(rows: seq<StockBalance>, key: string): (s: StockBalance)
    requires key in StockKeys(rows)
    ensures s in rows && StockKey(s) == key
  {
    if StockKey(rows[0]) == key then rows[0]
    else
      assert rows == [rows[0]] + rows[1..];
      FirstRow(rows[1..], key)
  }

  function Share(key: string, s: StockBalance): int {
    if StockKey(s) == key then Trunc(s.quantity) else 0
  }

  /** The sum of the truncated quantities of the rows under this key. */
  function Available(rows: seq<StockBalance>, key: string): int {
    SumInt(rows, s => Share(key, s))
  }

  function OfferOf(offers: map<string, string>, sku: string): Option<string> {
    if sku in offers && offers[sku] != "" then Some(offers[sku]) else None
  }

  function NameOf(ws: seq<Warehouse>, id: string): Option<string> {
    if ws == [] then None
    else if ws[0].refKey == id then Some(ws[0].description)
    else NameOf(ws[1..], id)
  }

  function StockLine(rows: seq<StockBalance>, ws: seq<Warehouse>, offers: map<string, string>, key: string): StockInput
    requires key in StockKeys(rows)
  {
    var f := FirstRow(rows, key);
    StockInput(f.nomenclatureKey, OfferOf(offers, f.nomenclatureKey), f.warehouseKey,
               NameOf(ws, f.warehouseKey), Available(rows, key), 0)
  }

  /** order lists the accumulated keys, each once, in hash-map order. */
  ghost predicate IsStockList(out: seq<StockInput>, order: seq<string>, rows: seq<StockBalance>,
                              ws: seq<Warehouse>, offers: map<string, string>) {
    && NoDup(order)
    && (forall k :: k in order <==> k in StockKeys(rows))
    && |out| == |order|
    && forall i :: 0 <= i < |order| ==> order[i] in StockKeys(rows) && out[i] == StockLine(rows, ws, offers, order[i])
  }

  ghost predicate HasStockList(out: seq<StockInput>, rows: seq<StockBalance>, ws: seq<Warehouse>, offers: map<string, string>) {
    exists order :: IsStockList(out, order, rows, ws, offers)
  }

  lemma {:induction false} SumIntAppend<T>(xs: seq<T>, x: T, f: T -> int)
    ensures SumInt(xs + [x], f) == SumInt(xs, f) + f(x)
  {
    if xs != [] {
      assert (xs + [x])[1..] == xs[1..] + [x];
      SumIntAppend(xs[1..], x, f);
    } else {
      assert xs + [x] == [x] && [x][1..] == [];
    }
  }

  lemma {:induction false} SumRealAppend<T>(xs: seq<T>, x: T, f: T -> real)
    ensures SumReal(xs + [x], f) == SumReal(xs, f) + f(x)
  {
    if xs != [] {
      assert (xs + [x])[1..] == xs[1..] + [x];
      SumRealAppend(xs[1..], x, f);
    } else {
      assert xs + [x] == [x] && [x][1..] == [];
    }
  }

  lemma {:induction false} FirstRowAppend(rows: seq<StockBalance>, s: StockBalance, key: string)
    requires key in StockKeys(rows + [s])
    ensures FirstRow(rows + [s], key) == if key in StockKeys(rows) then FirstRow(rows, key) else s
  {
    if rows != [] && StockKey(rows[0]) != key {
      assert (rows + [s])[1..] == rows[1..] + [s];
      assert rows == [rows[0]] + rows[1..];
      FirstRowAppend(rows[1..], s, key);
    }
  }

  lemma {:induction false} AvailableAbsent(rows: seq<StockBalance>, key: string)
    requires key !in StockKeys(rows)
    ensures Available(rows, key) == 0
  {
    if rows != [] {
      assert rows == [rows[0]] + rows[1..];
      assert rows[0] in rows;
      AvailableAbsent(rows[1..], key);
    }
  }

  /** What adding one row does to the accumulator table. */
  lemma {:induction false} StockLineAppend(rows: seq<StockBalance>, s: StockBalance, ws: seq<Warehouse>, offers: map<string, string>, key: string)
    requires key in StockKeys(rows + [s])
    ensures StockKeys(rows + [s]) == StockKeys(rows) + {StockKey(s)}
    ensures key != StockKey(s) ==> key in StockKeys(rows) && StockLine(rows + [s], ws, offers, key) == StockLine(rows, ws, offers, key)
    ensures key == StockKey(s) && key in StockKeys(rows) ==>
      StockLine(rows + [s], ws, offers, key)
        == StockLine(rows, ws, offers, key).(available := StockLine(rows, ws, offers, key).available + Trunc(s.quantity))
    ensures key == StockKey(s) && key !in StockKeys(rows) ==>
      StockLine(rows + [s], ws, offers, key)
        == StockInput(s.nomenclatureKey, OfferOf(offers, s.nomenclatureKey), s.warehouseKey, NameOf(ws, s.warehouseKey), Trunc(s.quantity), 0)
  {
    assert StockKeys(rows + [s]) == StockKeys(rows) + {StockKey(s)} by {
      assert s in rows + [s];
    }
    FirstRowAppend(rows, s, key);
    SumIntAppend(rows, s, r => Share(key, r));
    if key !in StockKeys(rows) { AvailableAbsent(rows, key); }
  }

  /** The accumulator table after the given rows. */
  ghost predicate StockTable(byKey: map<string, StockInput>, rows: seq<StockBalance>, ws: seq<Warehouse>, offers: map<string, string>) {
    byKey.Keys == StockKeys(rows) && forall k :: k in byKey ==> byKey[k] == StockLine(rows, ws, offers, k)
  }

  /** The accumulator of the row's key after the row. */
  function Accumulated(byKey: map<string, StockInput>, s: StockBalance, ws: seq<Warehouse>, offers: map<string, string>): StockInput {
    var k := StockKey(s);
    if k in byKey then byKey[k].(available := byKey[k].available + Trunc(s.quantity))
    else StockInput(s.nomenclatureKey, OfferOf(offers, s.nomenclatureKey), s.warehouseKey,
                    NameOf(ws, s.warehouseKey), Trunc(s.quantity), 0)
  }

  lemma {:induction false} StockTableAppend(byKey: map<string, StockInput>, rows: seq<StockBalance>, s: StockBalance,
                         ws: seq<Warehouse>, offers: map<string, string>)
    requires StockTable(byKey, rows, ws, offers)
    ensures StockTable(byKey[StockKey(s) := Accumulated(byKey, s, ws, offers)], rows + [s], ws, offers)
  {
    var t := byKey[StockKey(s) := Accumulated(byKey, s, ws, offers)];
    assert s in rows + [s] && StockKey(s) in StockKeys(rows + [s]);
    StockLineAppend(rows, s, ws, offers, StockKey(s));
    forall k | k in t ensures t[k] == StockLine(rows + [s], ws, offers, k) {
      StockLineAppend(rows, s, ws, offers, k);
    }
  }

  /** by_key after the given kept rows. */
  function StockFold(rows: seq<StockBalance>, ws: seq<Warehouse>, offers: map<string, string>): map<string, StockInput> {
    if rows == [] then map[]
    else
      var before := StockFold(rows[..|rows| - 1], ws, offers);
      before[StockKey(rows[|rows| - 1]) := Accumulated(before, rows[|rows| - 1], ws, offers)]
  }

  lemma {:induction false} StockFoldTable(rows: seq<StockBalance>, ws: seq<Warehouse>, offers: map<string, string>)
    ensures StockTable(StockFold(rows, ws, offers), rows, ws, offers)
  {
    if rows != [] {
      var n := |rows| - 1;
      StockFoldTable(rows[..n], ws, offers);
      StockTableAppend(StockFold(rows[..n], ws, offers), rows[..n], rows[n], ws, offers);
      assert rows == rows[..n] + [rows[n]];
    }
  }

  method AccumulateStocks(stocks: seq<StockBalance>, ws: seq<Warehouse>, offers: map<string, string>, allowed: set<string>)
    returns (byKey: map<string, StockInput>)
    ensures byKey == StockFold(AllowedRows(stocks, allowed), ws, offers)
  {
    byKey := map[];
    assert StockFold([], ws, offers) == map[] && AllowedRows([], allowed) == [];
    hide StockFold, AllowedRows, Accumulated, StockKey, IsAllowed;
    for i := 0 to |stocks|
      invariant byKey == StockFold(AllowedRows(stocks[..i], allowed), ws, offers)
    {
      AllowedAppend(stocks, i, allowed);
      var s := stocks[i];
      if s.nomenclatureKey == "" { continue; }
      if !IsAllowed(allowed, s.warehouseKey) { continue; }
      StockFoldSnoc(AllowedRows(stocks[..i], allowed), s, ws, offers);
      byKey := AddStock(byKey, s, ws, offers);
    }
    assert stocks[..|stocks|] == stocks;
  }

  lemma {:induction false} StockFoldSnoc(rows: seq<StockBalance>, s: StockBalance, ws: seq<Warehouse>, offers: map<string, string>)
    ensures var before := StockFold(rows, ws, offers);
      StockFold(rows + [s], ws, offers) == before[StockKey(s) := Accumulated(before, s, ws, offers)]
  {
    hide Accumulated, StockKey;
    assert (rows + [s])[..|rows|] == rows;
  }

  /** The body of the stock loop for a row that is kept. */
  method AddStock(byKey: map<string, StockInput>, s: StockBalance, ws: seq<Warehouse>, offers: map<string, string>)
    returns (t: map<string, StockInput>)
    ensures t == byKey[StockKey(s) := Accumulated(byKey, s, ws, offers)]
  {
    t := byKey;
    var key := s.nomenclatureKey + "|" + s.warehouseKey;
    if key !in t {
      var offer := if s.nomenclatureKey in offers && offers[s.nomenclatureKey] != ""
                   then Some(offers[s.nomenclatureKey]) else None;
      var name := FindName(ws, s.warehouseKey);
      t := t[key := StockInput(s.nomenclatureKey, offer, s.warehouseKey, name, 0, 0)];
    }
    t := t[key := t[key].(available := t[key].available + Trunc(s.quantity))];
  }

  /** The iteration order of an unordered_map: every key once, in no particular order. */
  method HashOrder<V>(m: map<string, V>) returns (order: seq<string>)
    ensures NoDup(order)
    ensures forall k :: k in order <==> k in m
  {
    order := [];
    var left := m.Keys;
    while left != {}
      invariant left <= m.Keys && NoDup(order)
      invariant forall k :: k in order <==> k in m.Keys - left
      decreases left
    {
      var k :| k in left;
      assert k !in order;
      left := left - {k};
      order := order + [k];
      assert NoDup(order) by {
        assert forall i :: 0 <= i < |order| - 1 ==> order[i] in order[..|order| - 1];
      }
    }
  }

  method AggregateStocks(stocks: seq<StockBalance>, ws: seq<Warehouse>, offers: map<string, string>, allowed: set<string>)
    returns (out: seq<StockInput>)
    ensures HasStockList(out, AllowedRows(stocks, allowed), ws, offers)
  {
    var byKey := AccumulateStocks(stocks, ws, offers, allowed);
    StockFoldTable(AllowedRows(stocks, allowed), ws, offers);
    var keys := HashOrder(byKey);
    out := Values(byKey, keys);
    assert forall i :: 0 <= i < |keys| ==> keys[i] in keys;
    hide StockLine, StockKeys, AllowedRows, StockFold;
    assert IsStockList(out, keys, AllowedRows(stocks, allowed), ws, offers);
  }

  /** The loop that moves the accumulators out. */
  method Values(byKey: map<string, StockInput>, keys: seq<string>) returns (out: seq<StockInput>)
    requires forall k :: k in keys ==> k in byKey
    ensures |out| == |keys| && forall i :: 0 <= i < |keys| ==> out[i] == byKey[keys[i]]
  {
    out := [];
    for i := 0 to |keys|
      invariant |out| == i
      invariant forall j :: 0 <= j < i ==> out[j] == byKey[keys[j]]
    {
      out := out + [byKey[keys[i]]];
    }
  }

  method FindName(ws: seq<Warehouse>, id: string) returns (name: Option<string>)
    ensures name == NameOf(ws, id)
  {
    name := None;
    for i := 0 to |ws|
      invariant NameOf(ws, id) == NameOf(ws[i..], id)
    {
      if ws[i].refKey == id {
        return Some(ws[i].description);
      }
    }
  }

  // ---- 3. costs ----

  /** analit_to_nom: a later row for the same key replaces an earlier one. */
  function AnalitToNom(analytics: seq<AnalyticKey>): map<string, string> {
    if analytics == [] then map[]
    else
      var last := analytics[|analytics| - 1];
      var before := AnalitToNom(analytics[..|analytics| - 1]);
      if last.refKey != "" && last.nomenclatureKey != "" then before[last.refKey := last.nomenclatureKey] else before
  }

  predicate ForSku(nom: map<string, string>, sku: string, c: CostBalance) {
    c.analyticKey in nom && nom[c.analyticKey] == sku && sku != ""
  }

  function TotalCost(costs: seq<CostBalance>, nom: map<string, string>, sku: string): real {
    SumReal(costs, c => if ForSku(nom, sku, c) then c.cost else 0.0)
  }

  function TotalQty(costs: seq<CostBalance>, nom: map<string, string>, sku: string): real {
    SumReal(costs, c => if ForSku(nom, sku, c) then c.quantity else 0.0)
  }

  /** The products with at least one cost row. */
  function CostSkus(costs: seq<CostBalance>, nom: map<string, string>): set<string> {
    set c | c in costs && c.analyticKey in nom && nom[c.analyticKey] != "" :: nom[c.analyticKey]
  }

  predicate Offers(sku: string, sp: SupplierPrice) {
    sp.nomenclatureKey == sku && sp.price > 0.0
  }

  datatype Best = Best(price: real, at: string)

  /** min_purchase and source_at after the supplier loop; price 0 means none found. */
  function BestPurchase(suppliers: seq<SupplierPrice>, sku: string): Best {
    if suppliers == [] then Best(0.0, "")
    else
      var last := suppliers[|suppliers| - 1];
      var before := BestPurchase(suppliers[..|suppliers| - 1], sku);
      if Offers(sku, last) && (before.price == 0.0 || last.price < before.price) then Best(last.price, last.period)
      else before
  }

  datatype Accum = Accum(totalCost: real, totalQty: real)

  function AverageOf(a: Accum): Option<real> {
    if a.totalQty > 0.0 && a.totalCost > 0.0 then Some(a.totalCost / a.totalQty) else None
  }

  function CostLine(costs: seq<CostBalance>, nom: map<string, string>, suppliers: seq<SupplierPrice>, sku: string): CostInput {
    var avg := AverageOf(Accum(TotalCost(costs, nom, sku), TotalQty(costs, nom, sku)));
    var best := BestPurchase(suppliers, sku);
    if best.price > 0.0 then CostInput(sku, avg, Some(best.price), Some("supplier_register"), Some(best.at), None)
    else CostInput(sku, avg, None, None, None, None)
  }

  predicate KeepsCostLine(c: CostInput) {
    c.batchAvgCost.Some? || c.purchaseCost.Some? || c.dealerCost.Some?
  }

  function CostLinesFor(order: seq<string>, costs: seq<CostBalance>, nom: map<string, string>, suppliers: seq<SupplierPrice>): seq<CostInput> {
    Filter(Map(order, sku => CostLine(costs, nom, suppliers, sku)), KeepsCostLine)
  }

  ghost predicate IsCostList(out: seq<CostInput>, order: seq<string>, costs: seq<CostBalance>,
                             nom: map<string, string>, suppliers: seq<SupplierPrice>) {
    && NoDup(order)
    && (forall k :: k in order <==> k in CostSkus(costs, nom))
    && out == CostLinesFor(order, costs, nom, suppliers)
  }

  ghost predicate HasCostList(out: seq<CostInput>, costs: seq<CostBalance>, nom: map<string, string>, suppliers: seq<SupplierPrice>) {
    exists order :: IsCostList(out, order, costs, nom, suppliers)
  }

  method BuildAnalitToNom(analytics: seq<AnalyticKey>) returns (nom: map<string, string>)
    ensures nom == AnalitToNom(analytics)
  {
    nom := map[];
    for i := 0 to |analytics|
      invariant nom == AnalitToNom(analytics[..i])
    {
      assert analytics[..i + 1][..i] == analytics[..i];
      var a := analytics[i];
      if a.refKey != "" && a.nomenclatureKey != "" {
        nom := nom[a.refKey := a.nomenclatureKey];
      }
    }
    assert analytics[..|analytics|] == analytics;
  }

  method MinPurchase(suppliers: seq<SupplierPrice>, sku: string) returns (best: Best)
    ensures best == BestPurchase(suppliers, sku)
  {
    var minPurchase, sourceAt := 0.0, "";
    for i := 0 to |suppliers|
      invariant Best(minPurchase, sourceAt) == BestPurchase(suppliers[..i], sku)
    {
      assert suppliers[..i + 1][..i] == suppliers[..i];
      var sp := suppliers[i];
      if sp.nomenclatureKey != sku { continue; }
      if sp.price <= 0.0 { continue; }
      if minPurchase == 0.0 || sp.price < minPurchase {
        minPurchase, sourceAt := sp.price, sp.period;
      }
    }
    assert suppliers[..|suppliers|] == suppliers;
    best := Best(minPurchase, sourceAt);
  }

  lemma {:induction false} TotalsAppend(costs: seq<CostBalance>, c: CostBalance, nom: map<string, string>, sku: string)
    ensures TotalCost(costs + [c], nom, sku) == TotalCost(costs, nom, sku) + if ForSku(nom, sku, c) then c.cost else 0.0
    ensures TotalQty(costs + [c], nom, sku) == TotalQty(costs, nom, sku) + if ForSku(nom, sku, c) then c.quantity else 0.0
  {
    SumRealAppend(costs, c, c => if ForSku(nom, sku, c) then c.cost else 0.0);
    SumRealAppend(costs, c, c => if ForSku(nom, sku, c) then c.quantity else 0.0);
  }

  lemma {:induction false} TotalsAbsent(costs: seq<CostBalance>, nom: map<string, string>, sku: string)
    requires sku !in CostSkus(costs, nom)
    ensures TotalCost(costs, nom, sku) == 0.0 && TotalQty(costs, nom, sku) == 0.0
  {
    if costs != [] {
      assert costs == [costs[0]] + costs[1..];
      assert costs[0] in costs;
      assert sku !in CostSkus(costs[1..], nom);
      assert !ForSku(nom, sku, costs[0]);
      TotalsAbsent(costs[1..], nom, sku);
    }
  }

  ghost predicate CostTable(bySku: map<string, Accum>, rows: seq<CostBalance>, nom: map<string, string>) {
    && bySku.Keys == CostSkus(rows, nom)
    && forall k :: k in bySku ==> bySku[k] == Accum(TotalCost(rows, nom, k), TotalQty(rows, nom, k))
  }

  lemma {:induction false} CostTableAppend(bySku: map<string, Accum>, rows: seq<CostBalance>, c: CostBalance, nom: map<string, string>, t: map<string, Accum>)
    requires CostTable(bySku, rows, nom)
    requires
      if c.analyticKey in nom && nom[c.analyticKey] != "" then
        var sku := nom[c.analyticKey];
        var acc := if sku in bySku then bySku[sku] else Accum(0.0, 0.0);
        t == bySku[sku := Accum(acc.totalCost + c.cost, acc.totalQty + c.quantity)]
      else t == bySku
    ensures CostTable(t, rows + [c], nom)
  {
    assert t.Keys == CostSkus(rows + [c], nom) by {
      assert c in rows + [c];
      assert forall d :: d in rows + [c] <==> d in rows || d == c;
    }
    forall k | k in t ensures t[k] == Accum(TotalCost(rows + [c], nom, k), TotalQty(rows + [c], nom, k)) {
      TotalsAppend(rows, c, nom, k);
      if k !in bySku { TotalsAbsent(rows, nom, k); }
    }
  }

  method AccumulateCosts(costs: seq<CostBalance>, nom: map<string, string>) returns (bySku: map<string, Accum>)
    ensures CostTable(bySku, costs, nom)
  {
    bySku := map[];
    for i := 0 to |costs|
      invariant CostTable(bySku, costs[..i], nom)
    {
      var c := costs[i];
      ghost var before := bySku;
      assert costs[..i + 1] == costs[..i] + [c];
      if c.analyticKey in nom {
        var sku := nom[c.analyticKey];
        if sku != "" {
          var acc := if sku in bySku then bySku[sku] else Accum(0.0, 0.0);
          bySku := bySku[sku := Accum(acc.totalCost + c.cost, acc.totalQty + c.quantity)];
        }
      }
      CostTableAppend(before, costs[..i], c, nom, bySku);
    }
    assert costs[..|costs|] == costs;
  }

  /** The body of the loop over by_sku. */
  method BuildCostLine(sku: string, acc: Accum, suppliers: seq<SupplierPrice>) returns (ci: CostInput)
    ensures ci.sku1c == sku && ci.batchAvgCost == AverageOf(acc) && ci.dealerCost == None
    ensures var best := BestPurchase(suppliers, sku);
      if best.price > 0.0
      then ci.purchaseCost == Some(best.price) && ci.purchaseSource == Some("supplier_register") && ci.purchaseSourceAt == Some(best.at)
      else ci.purchaseCost == None && ci.purchaseSource == None && ci.purchaseSourceAt == None
  {
    ci := CostInput(sku, None, None, None, None, None);
    if acc.totalQty > 0.0 && acc.totalCost > 0.0 {
      ci := ci.(batchAvgCost := Some(acc.totalCost / acc.totalQty));
    }
    var best := MinPurchase(suppliers, sku);
    if best.price > 0.0 {
      ci := ci.(purchaseCost := Some(best.price), purchaseSource := Some("supplier_register"),
                purchaseSourceAt := Some(best.at));
    }
  }

  lemma {:induction false} BuiltLine(ci: CostInput, costs: seq<CostBalance>, nom: map<string, string>, suppliers: seq<SupplierPrice>, sku: string)
    requires ci.sku1c == sku && ci.dealerCost == None
    requires ci.batchAvgCost == AverageOf(Accum(TotalCost(costs, nom, sku), TotalQty(costs, nom, sku)))
    requires var best := BestPurchase(suppliers, sku);
      if best.price > 0.0
      then ci.purchaseCost == Some(best.price) && ci.purchaseSource == Some("supplier_register") && ci.purchaseSourceAt == Some(best.at)
      else ci.purchaseCost == None && ci.purchaseSource == None && ci.purchaseSourceAt == None
    ensures ci == CostLine(costs, nom, suppliers, sku)
    ensures KeepsCostLine(ci) <==> ci.batchAvgCost.Some? || ci.purchaseCost.Some? || ci.dealerCost.Some?
  {
    hide TotalCost, TotalQty, BestPurchase, AverageOf;
  }

  ghost predicate AccumulatorOf(bySku: map<string, Accum>, costs: seq<CostBalance>, nom: map<string, string>, sku: string) {
    sku in bySku && bySku[sku] == Accum(TotalCost(costs, nom, sku), TotalQty(costs, nom, sku))
  }

  /** The loop body: the line of a product and whether it is kept. */
  method OneCostLine(sku: string, bySku: map<string, Accum>, costs: seq<CostBalance>, nom: map<string, string>, suppliers: seq<SupplierPrice>)
    returns (ci: CostInput, kept: bool)
    requires AccumulatorOf(bySku, costs, nom, sku)
    ensures ci == CostLine(costs, nom, suppliers, sku) && (kept <==> KeepsCostLine(ci))
  {
    hide TotalCost, TotalQty, BestPurchase, AverageOf, CostLine, KeepsCostLine;
    ci := BuildCostLine(sku, bySku[sku], suppliers);
    BuiltLine(ci, costs, nom, suppliers, sku);
    kept := ci.batchAvgCost.Some? || ci.purchaseCost.Some? || ci.dealerCost.Some?;
  }

  /** The loop over by_sku, in a given order of its keys. */
  method CostLines(skus: seq<string>, bySku: map<string, Accum>, costs: seq<CostBalance>, nom: map<string, string>, suppliers: seq<SupplierPrice>)
    returns (out: seq<CostInput>)
    requires forall i :: 0 <= i < |skus| ==> AccumulatorOf(bySku, costs, nom, skus[i])
    ensures out == CostLinesFor(skus, costs, nom, suppliers)
  {
    out := [];
    NoCostLines(costs, nom, suppliers);
    hide *;
    Slices(skus);
    for i := 0 to |skus|
      invariant out == CostLinesFor(skus[..i], costs, nom, suppliers)
    {
      var ci, kept := OneCostLine(skus[i], bySku, costs, nom, suppliers);
      CostLinesAt(skus, i, costs, nom, suppliers);
      if kept {
        out := out + [ci];
      }
    }
  }

  lemma {:induction false} CostLinesAt(skus: seq<string>, i: nat, costs: seq<CostBalance>, nom: map<string, string>, suppliers: seq<SupplierPrice>)
    requires i < |skus|
    ensures var ci, before := CostLine(costs, nom, suppliers, skus[i]), CostLinesFor(skus[..i], costs, nom, suppliers);
      CostLinesFor(skus[..i + 1], costs, nom, suppliers) == if KeepsCostLine(ci) then before + [ci] else before
  {
    hide *;
    CostLinesAppend(skus[..i], skus[i], costs, nom, suppliers);
    assert skus[..i + 1] == skus[..i] + [skus[i]];
  }

  lemma {:induction false} NoCostLines(costs: seq<CostBalance>, nom: map<string, string>, suppliers: seq<SupplierPrice>)
    ensures CostLinesFor([], costs, nom, suppliers) == []
  {
  }

  method AggregateCosts(pull: PullResult) returns (out: seq<CostInput>)
    ensures HasCostList(out, pull.costs, AnalitToNom(pull.analytics), pull.suppliers)
  {
    hide TotalCost, TotalQty, AnalitToNom, CostSkus, CostLinesFor;
    var nom := BuildAnalitToNom(pull.analytics);
    var bySku := AccumulateCosts(pull.costs, nom);
    var skus := HashOrder(bySku);
    forall i | 0 <= i < |skus| ensures AccumulatorOf(bySku, pull.costs, nom, skus[i]) {
      assert skus[i] in skus;
    }
    out := CostLines(skus, bySku, pull.costs, nom, pull.suppliers);
    assert IsCostList(out, skus, pull.costs, nom, pull.suppliers);
  }

  lemma {:induction false} CostLinesAppend(order: seq<string>, sku: string, costs: seq<CostBalance>, nom: map<string, string>, suppliers: seq<SupplierPrice>)
    ensures CostLinesFor(order + [sku], costs, nom, suppliers)
         == CostLinesFor(order, costs, nom, suppliers)
            + if KeepsCostLine(CostLine(costs, nom, suppliers, sku)) then [CostLine(costs, nom, suppliers, sku)] else []
  {
    hide CostLine, Map, Filter, KeepsCostLine;
    var f := k => CostLine(costs, nom, suppliers, k);
    MapAppend(order, sku, f);
    FilterSnoc(Map(order, f), f(sku), KeepsCostLine);
  }

  // ---- the whole request ----

  ghost predicate IsSnapshot(req: SnapshotRequest, period: string, pull: PullResult, offers: map<string, string>,
                             isPreview: bool, allowed: set<string>) {
    && req.measuredAt == period + "Z"
    && req.mode == "FULL"
    && req.batchId == ReplaceColons((if isPreview then "preview-" else "odata-") + period)
    && req.warehouses == WarehouseLines(pull.warehouses, allowed)
    && HasStockList(req.stocks, AllowedRows(pull.stocks, allowed), pull.warehouses, offers)
    && HasCostList(req.costs, pull.costs, AnalitToNom(pull.analytics), pull.suppliers)
  }

  method PullToSnapshot(period: string, pull: PullResult, offers: map<string, string>, isPreview: bool, allowed: set<string>)
    returns (req: SnapshotRequest)
    ensures IsSnapshot(req, period, pull, offers, isPreview, allowed)
  {
    var warehouses: seq<WarehouseInput> := [];
    for i := 0 to |pull.warehouses|
      invariant warehouses == WarehouseLines(pull.warehouses[..i], allowed)
    {
      WarehouseLinesAppend(pull.warehouses, i, allowed);
      hide WarehouseLines;
      var w := pull.warehouses[i];
      if w.refKey == "" { continue; }
      if !IsAllowed(allowed, w.refKey) { continue; }
      warehouses := warehouses + [WarehouseInput(w.refKey, w.description)];
    }
    assert pull.warehouses[..|pull.warehouses|] == pull.warehouses;
    hide IsStockList, IsCostList, WarehouseLines;
    var stocks := AggregateStocks(pull.stocks, pull.warehouses, offers, allowed);
    var costs := AggregateCosts(pull);
    var batch := (if isPreview then "preview-" else "odata-") + period;
    req := SnapshotRequest(ReplaceColons(batch), period + "Z", "FULL", stocks, warehouses, costs);
  }
}
