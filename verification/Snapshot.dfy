/** The snapshot request of inventory_preview.hpp. */
module Snapshot {
  import opened Sequences

  datatype StockInput = StockInput(sku1c: string, offerId: Option<string>, warehouseId: string,
                                   warehouseName: Option<string>, available: int, reserved: int)

  datatype WarehouseInput = WarehouseInput(warehouseId: string, warehouseName: string)

  datatype CostInput = CostInput(sku1c: string, batchAvgCost: Option<real>, purchaseCost: Option<real>,
                                 purchaseSource: Option<string>, purchaseSourceAt: Option<string>,
                                 dealerCost: Option<real>)

  datatype SnapshotRequest = SnapshotRequest(batchId: string, measuredAt: string, mode: string,
                                             stocks: seq<StockInput>, warehouses: seq<WarehouseInput>,
                                             costs: seq<CostInput>)
}
