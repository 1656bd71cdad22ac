/** canonical_json: the text hashed to recognise a repeated snapshot, as a JSON tree. */
module Canonical {
  import opened Sequences
  import opened Order
  import opened Snapshot
  import opened SnapshotFacts

  datatype Json =
    | JNull
    | JString(s: string)
    | JInteger(i: int)
    | JNumber(n: real)
    | JArray(items: seq<Json>)
    | JObject(fields: seq<(string, Json)>)

  function OptStr(v: Option<string>): Json {
    if v.Some? && v.value != "" then JString(v.value) else JNull
  }

  function OptNum(v: Option<real>): Json {
    if v.Some? then JNumber(v.value) else JNull
  }

  function StockJson(s: StockInput): Json {
    JObject([("sku_1c", JString(s.sku1c)), ("offer_id", OptStr(s.offerId)), ("warehouse_id", JString(s.warehouseId)),
             ("available", JInteger(s.available)), ("reserved", JInteger(s.reserved))])
  }

  function CostJson(c: CostInput): Json {
    JObject([("sku_1c", JString(c.sku1c)), ("batch_avg_cost", OptNum(c.batchAvgCost)), ("purchase_cost", OptNum(c.purchaseCost)),
             ("purchase_source", OptStr(c.purchaseSource)), ("purchase_source_at", OptStr(c.purchaseSourceAt)),
             ("dealer_cost", OptNum(c.dealerCost))])
  }

  function WarehouseJson(w: WarehouseInput): Json {
    JObject([("warehouse_id", JString(w.warehouseId)), ("warehouse_name", JString(w.warehouseName))])
  }

  function WarehouseSortKey(w: WarehouseInput): Key { [w.warehouseId] }

  function CanonicalTree(req: SnapshotRequest): Json {
    JObject([("batch_id", JString(req.batchId)), ("measured_at", JString(req.measuredAt)), ("mode", JString(req.mode)),
             ("stocks", JArray(Map(SortBy(req.stocks, StockSortKey), StockJson))),
             ("warehouses", JArray(Map(SortBy(req.warehouses, WarehouseSortKey), WarehouseJson))),
             ("costs", JArray(Map(SortBy(req.costs, CostSortKey), CostJson)))])
  }

  /** The array loops of canonical_json. */
  method ToArray<T>(xs: seq<T>, f: T -> Json) returns (items: seq<Json>)
    ensures items == Map(xs, f)
  {
    items := [];
    for i := 0 to |xs|
      invariant |items| == i && forall j :: 0 <= j < i ==> items[j] == f(xs[j])
    {
      items := items + [f(xs[i])];
    }
  }

  method CanonicalJson(req: SnapshotRequest) returns (body: Json)
    ensures body == CanonicalTree(req)
  {
    var st := SortBy(req.stocks, StockSortKey);
    var co := SortBy(req.costs, CostSortKey);
    var wa := SortBy(req.warehouses, WarehouseSortKey);
    var stocksJson := ToArray(st, StockJson);
    var costsJson := ToArray(co, CostJson);
    var warehousesJson := ToArray(wa, WarehouseJson);
    body := JObject([("batch_id", JString(req.batchId)), ("measured_at", JString(req.measuredAt)), ("mode", JString(req.mode)),
                     ("stocks", JArray(stocksJson)), ("warehouses", JArray(warehousesJson)), ("costs", JArray(costsJson))]);
  }

  // ---- the canonical content ----

  function NonEmpty(v: Option<string>): Option<string> {
    if v.Some? && v.value != "" then v else None
  }

  /** The hash ignores the warehouse name of a stock row and reads "" as absent. */
  function NormStock(s: StockInput): StockInput {
    s.(offerId := NonEmpty(s.offerId), warehouseName := None)
  }

  function NormCost(c: CostInput): CostInput {
    c.(purchaseSource := NonEmpty(c.purchaseSource), purchaseSourceAt := NonEmpty(c.purchaseSourceAt))
  }

  /** Equal content: same head, and the three lists are permutations after normalising. */
  ghost predicate SameContent(a: SnapshotRequest, b: SnapshotRequest) {
    && a.batchId == b.batchId && a.measuredAt == b.measuredAt && a.mode == b.mode
    && multiset(Map(a.stocks, NormStock)) == multiset(Map(b.stocks, NormStock))
    && multiset(Map(a.costs, NormCost)) == multiset(Map(b.costs, NormCost))
    && multiset(a.warehouses) == multiset(b.warehouses)
  }

  /** Distinct sort keys in each list. */
  ghost predicate DistinctLists(req: SnapshotRequest) {
    && DistinctKeys(req.stocks, StockSortKey)
    && DistinctKeys(req.costs, CostSortKey)
    && DistinctKeys(req.warehouses, WarehouseSortKey)
  }

  /** One list of the canonical form: json(x) and norm(x) carry the same information and
      norm keeps the sort key, so equal arrays mean equal normalised multisets. */
  lemma {:induction false} ListCanonical<T(!new)>(xs: seq<T>, ys: seq<T>, key: T -> Key, norm: T -> T, json: T -> Json)
    requires forall x :: key(norm(x)) == key(x)
    requires forall x, y :: json(x) == json(y) <==> norm(x) == norm(y)
    requires DistinctKeys(xs, key) && DistinctKeys(ys, key)
    ensures Map(SortBy(xs, key), json) == Map(SortBy(ys, key), json)
       <==> multiset(Map(xs, norm)) == multiset(Map(ys, norm))
  {
    SameArrays(SortBy(xs, key), SortBy(ys, key), norm, json);
    NormalisedSorted(xs, ys, key, norm);
  }

  lemma {:induction false} NormalisedSorted<T(!new)>(xs: seq<T>, ys: seq<T>, key: T -> Key, norm: T -> T)
    requires forall x :: key(norm(x)) == key(x)
    requires DistinctKeys(xs, key) && DistinctKeys(ys, key)
    ensures Map(SortBy(xs, key), norm) == Map(SortBy(ys, key), norm)
       <==> multiset(Map(xs, norm)) == multiset(Map(ys, norm))
  {
    var sx, sy := SortBy(xs, key), SortBy(ys, key);
    MapPermutation(sx, xs, norm);
    MapPermutation(sy, ys, norm);
    if multiset(Map(xs, norm)) == multiset(Map(ys, norm)) {
      SortBySorted(xs, key);
      SortBySorted(ys, key);
      NormKeepsSorted(sx, key, norm);
      NormKeepsSorted(sy, key, norm);
      SortedPermutationsEqual(Map(sx, norm), Map(sy, norm), key);
    }
  }

  lemma {:induction false} NormKeepsSorted<T>(xs: seq<T>, key: T -> Key, norm: T -> T)
    requires StrictlySorted(xs, key)
    requires forall i :: 0 <= i < |xs| ==> key(norm(xs[i])) == key(xs[i])
    ensures StrictlySorted(Map(xs, norm), key)
  {
  }

  lemma {:induction false} SortedPermutationsEqual<T>(a: seq<T>, b: seq<T>, key: T -> Key)
    requires StrictlySorted(a, key) && StrictlySorted(b, key) && multiset(a) == multiset(b)
    ensures a == b
  {
    PermutationSize(a, b);
    StrictlySortedUnique(a, b, key);
  }

  lemma {:induction false} SameArrays<T>(a: seq<T>, b: seq<T>, norm: T -> T, json: T -> Json)
    requires forall x, y :: x in a && y in b ==> (json(x) == json(y) <==> norm(x) == norm(y))
    ensures Map(a, json) == Map(b, json) <==> Map(a, norm) == Map(b, norm)
  {
    assert |Map(a, json)| == |Map(a, norm)| == |a|;
    assert |Map(b, json)| == |Map(b, norm)| == |b|;
    if |a| == |b| {
      forall i | 0 <= i < |a| ensures Map(a, json)[i] == Map(b, json)[i] <==> Map(a, norm)[i] == Map(b, norm)[i] {
        assert a[i] in a && b[i] in b;
      }
    }
  }

  function Same(w: WarehouseInput): WarehouseInput { w }

  lemma {:induction false} MapSame(xs: seq<WarehouseInput>)
    ensures Map(xs, Same) == xs
  {
  }

  /** The canonical tree is a canonical form: two snapshots hash alike if and only if they
      have the same content. */
  lemma {:induction false} CanonicalForm(a: SnapshotRequest, b: SnapshotRequest)
    requires DistinctLists(a) && DistinctLists(b)
    ensures CanonicalTree(a) == CanonicalTree(b) <==> SameContent(a, b)
  {
    ListCanonical(a.stocks, b.stocks, StockSortKey, NormStock, StockJson);
    CostsCanonical(a.costs, b.costs);
    WarehousesCanonical(a.warehouses, b.warehouses);
    TreeParts(a, b);
  }

  lemma {:induction false} CostsCanonical(a: seq<CostInput>, b: seq<CostInput>)
    requires DistinctKeys(a, CostSortKey) && DistinctKeys(b, CostSortKey)
    ensures Map(SortBy(a, CostSortKey), CostJson) == Map(SortBy(b, CostSortKey), CostJson)
       <==> multiset(Map(a, NormCost)) == multiset(Map(b, NormCost))
  {
    forall x, y ensures CostJson(x) == CostJson(y) <==> NormCost(x) == NormCost(y) {
      CostJsonParts(x, y);
    }
    ListCanonical(a, b, CostSortKey, NormCost, CostJson);
  }

  lemma {:induction false} CostJsonParts(x: CostInput, y: CostInput)
    ensures CostJson(x) == CostJson(y) <==> NormCost(x) == NormCost(y)
  {
    var f, g := CostJson(x).fields, CostJson(y).fields;
    if CostJson(x) == CostJson(y) {
      assert f[0] == g[0] && f[1] == g[1] && f[2] == g[2] && f[3] == g[3] && f[4] == g[4] && f[5] == g[5];
    }
  }

  lemma {:induction false} WarehouseJsonParts(x: WarehouseInput, y: WarehouseInput)
    ensures WarehouseJson(x) == WarehouseJson(y) <==> x == y
  {
    var f, g := WarehouseJson(x).fields, WarehouseJson(y).fields;
    if WarehouseJson(x) == WarehouseJson(y) { assert f[0] == g[0] && f[1] == g[1]; }
  }

  lemma {:induction false} WarehousesCanonical(a: seq<WarehouseInput>, b: seq<WarehouseInput>)
    requires DistinctKeys(a, WarehouseSortKey) && DistinctKeys(b, WarehouseSortKey)
    ensures Map(SortBy(a, WarehouseSortKey), WarehouseJson) == Map(SortBy(b, WarehouseSortKey), WarehouseJson)
       <==> multiset(a) == multiset(b)
  {
    forall x, y ensures WarehouseJson(x) == WarehouseJson(y) <==> Same(x) == Same(y) {
      WarehouseJsonParts(x, y);
    }
    ListCanonical(a, b, WarehouseSortKey, Same, WarehouseJson);
    MapSame(a);
    MapSame(b);
  }

  lemma {:induction false} TreeParts(a: SnapshotRequest, b: SnapshotRequest)
    ensures CanonicalTree(a) == CanonicalTree(b) <==>
      && a.batchId == b.batchId && a.measuredAt == b.measuredAt && a.mode == b.mode
      && Map(SortBy(a.stocks, StockSortKey), StockJson) == Map(SortBy(b.stocks, StockSortKey), StockJson)
      && Map(SortBy(a.warehouses, WarehouseSortKey), WarehouseJson) == Map(SortBy(b.warehouses, WarehouseSortKey), WarehouseJson)
      && Map(SortBy(a.costs, CostSortKey), CostJson) == Map(SortBy(b.costs, CostSortKey), CostJson)
  {
    var f, g := CanonicalTree(a).fields, CanonicalTree(b).fields;
    if CanonicalTree(a) == CanonicalTree(b) {
      assert f[0] == g[0] && f[1] == g[1] && f[2] == g[2] && f[3] == g[3] && f[4] == g[4] && f[5] == g[5];
    }
  }

  // ---- the text itself ----

  predicate IsStockText(j: Json, s: StockInput) {
    j == JObject([("sku_1c", JString(s.sku1c)),
                  ("offer_id", if s.offerId.Some? && s.offerId.value != "" then JString(s.offerId.value) else JNull),
                  ("warehouse_id", JString(s.warehouseId)), ("available", JInteger(s.available)), ("reserved", JInteger(s.reserved))])
  }

  predicate IsCostText(j: Json, c: CostInput) {
    j == JObject([("sku_1c", JString(c.sku1c)),
                  ("batch_avg_cost", if c.batchAvgCost.Some? then JNumber(c.batchAvgCost.value) else JNull),
                  ("purchase_cost", if c.purchaseCost.Some? then JNumber(c.purchaseCost.value) else JNull),
                  ("purchase_source", if c.purchaseSource.Some? && c.purchaseSource.value != "" then JString(c.purchaseSource.value) else JNull),
                  ("purchase_source_at",
                   if c.purchaseSourceAt.Some? && c.purchaseSourceAt.value != "" then JString(c.purchaseSourceAt.value) else JNull),
                  ("dealer_cost", if c.dealerCost.Some? then JNumber(c.dealerCost.value) else JNull)])
  }

  predicate IsWarehouseText(j: Json, w: WarehouseInput) {
    j == JObject([("warehouse_id", JString(w.warehouseId)), ("warehouse_name", JString(w.warehouseName))])
  }

  /** The object: its six fields in this order. */
  predicate IsSnapshotText(j: Json, req: SnapshotRequest, stocks: seq<Json>, warehouses: seq<Json>, costs: seq<Json>) {
    j == JObject([("batch_id", JString(req.batchId)), ("measured_at", JString(req.measuredAt)), ("mode", JString(req.mode)),
                  ("stocks", JArray(stocks)), ("warehouses", JArray(warehouses)), ("costs", JArray(costs))])
  }

  ghost predicate ByProductAndWarehouse(xs: seq<StockInput>) {
    forall i, j :: 0 <= i < j < |xs| ==>
      StrLess(xs[i].sku1c, xs[j].sku1c) || (xs[i].sku1c == xs[j].sku1c && StrLess(xs[i].warehouseId, xs[j].warehouseId))
  }

  lemma {:induction false} StocksInOrder(xs: seq<StockInput>)
    requires DistinctKeys(xs, StockSortKey)
    ensures ByProductAndWarehouse(SortBy(xs, StockSortKey))
  {
    var sorted := SortBy(xs, StockSortKey);
    SortBySorted(xs, StockSortKey);
    hide SortBy, StrLess, KeyLess;
    forall i, j | 0 <= i < j < |sorted|
      ensures StrLess(sorted[i].sku1c, sorted[j].sku1c)
        || (sorted[i].sku1c == sorted[j].sku1c && StrLess(sorted[i].warehouseId, sorted[j].warehouseId))
    {
      PairLess(sorted[i].sku1c, sorted[i].warehouseId, sorted[j].sku1c, sorted[j].warehouseId);
    }
  }

  lemma {:induction false} CostsInOrder(xs: seq<CostInput>)
    requires DistinctKeys(xs, CostSortKey)
    ensures var sorted := SortBy(xs, CostSortKey); forall i, j :: 0 <= i < j < |sorted| ==> StrLess(sorted[i].sku1c, sorted[j].sku1c)
  {
    var sorted := SortBy(xs, CostSortKey);
    SortBySorted(xs, CostSortKey);
    hide SortBy, StrLess, KeyLess;
    forall i, j | 0 <= i < j < |sorted| ensures StrLess(sorted[i].sku1c, sorted[j].sku1c) {
      SingleLess(sorted[i].sku1c, sorted[j].sku1c);
    }
  }

  lemma {:induction false} WarehousesInOrder(xs: seq<WarehouseInput>)
    requires DistinctKeys(xs, WarehouseSortKey)
    ensures var sorted := SortBy(xs, WarehouseSortKey);
      forall i, j :: 0 <= i < j < |sorted| ==> StrLess(sorted[i].warehouseId, sorted[j].warehouseId)
  {
    var sorted := SortBy(xs, WarehouseSortKey);
    SortBySorted(xs, WarehouseSortKey);
    hide SortBy, StrLess, KeyLess;
    forall i, j | 0 <= i < j < |sorted| ensures StrLess(sorted[i].warehouseId, sorted[j].warehouseId) {
      SingleLess(sorted[i].warehouseId, sorted[j].warehouseId);
    }
  }

  lemma {:induction false} StockTexts(xs: seq<StockInput>)
    ensures var js := Map(xs, StockJson); |js| == |xs| && forall i :: 0 <= i < |js| ==> IsStockText(js[i], xs[i])
  {
    hide Map;
  }

  lemma {:induction false} CostTexts(xs: seq<CostInput>)
    ensures var js := Map(xs, CostJson); |js| == |xs| && forall i :: 0 <= i < |js| ==> IsCostText(js[i], xs[i])
  {
    hide Map;
  }

  lemma {:induction false} WarehouseTexts(xs: seq<WarehouseInput>)
    ensures var js := Map(xs, WarehouseJson); |js| == |xs| && forall i :: 0 <= i < |js| ==> IsWarehouseText(js[i], xs[i])
  {
    hide Map;
  }

  lemma {:induction false} WholeText(req: SnapshotRequest)
    ensures IsSnapshotText(CanonicalTree(req), req,
                           Map(SortBy(req.stocks, StockSortKey), StockJson),
                           Map(SortBy(req.warehouses, WarehouseSortKey), WarehouseJson),
                           Map(SortBy(req.costs, CostSortKey), CostJson))
  {
    hide Map, SortBy;
  }

  /** The canonical text, field by field: stocks ascend by product and warehouse, warehouses by
      key, costs by product; an absent or empty text is null. */
  lemma {:induction false} CanonicalText(req: SnapshotRequest)
    returns (stocks: seq<StockInput>, warehouses: seq<WarehouseInput>, costs: seq<CostInput>, st: seq<Json>, wa: seq<Json>, co: seq<Json>)
    requires DistinctLists(req)
    ensures multiset(stocks) == multiset(req.stocks) && ByProductAndWarehouse(stocks)
    ensures multiset(warehouses) == multiset(req.warehouses)
    ensures forall i, j :: 0 <= i < j < |warehouses| ==> StrLess(warehouses[i].warehouseId, warehouses[j].warehouseId)
    ensures multiset(costs) == multiset(req.costs) && forall i, j :: 0 <= i < j < |costs| ==> StrLess(costs[i].sku1c, costs[j].sku1c)
    ensures IsSnapshotText(CanonicalTree(req), req, st, wa, co)
    ensures |st| == |stocks| && forall i :: 0 <= i < |st| ==> IsStockText(st[i], stocks[i])
    ensures |wa| == |warehouses| && forall i :: 0 <= i < |wa| ==> IsWarehouseText(wa[i], warehouses[i])
    ensures |co| == |costs| && forall i :: 0 <= i < |co| ==> IsCostText(co[i], costs[i])
  {
    hide *;
    stocks, warehouses, costs := SortBy(req.stocks, StockSortKey), SortBy(req.warehouses, WarehouseSortKey), SortBy(req.costs, CostSortKey);
    st, wa, co := Map(stocks, StockJson), Map(warehouses, WarehouseJson), Map(costs, CostJson);
    DistinctParts(req);
    StocksInOrder(req.stocks);
    WarehousesInOrder(req.warehouses);
    CostsInOrder(req.costs);
    WholeText(req);
    StockTexts(stocks);
    WarehouseTexts(warehouses);
    CostTexts(costs);
  }

  lemma {:induction false} DistinctParts(req: SnapshotRequest)
    requires DistinctLists(req)
    ensures DistinctKeys(req.stocks, StockSortKey) && DistinctKeys(req.costs, CostSortKey) && DistinctKeys(req.warehouses, WarehouseSortKey)
  {
  }
}
