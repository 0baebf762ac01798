/**
 * Warehouse stock as the order router sees it: a level per (warehouse, UPC) pair, lowered by a
 * removal and raised by an addition. The inventory service that owns the levels is not part of
 * this model; its two calls are modelled by their effect on the levels.
 */
module Stock {
  import opened Wrappers
  import opened Errors
  import opened Uuids
  import opened Models

  datatype StockKey = StockKey(warehouseId: Uuid, upc: int)

  type StockLevels = map<StockKey, int>

  /** The level of one item in one warehouse; an item the map does not mention has none. */
  function Level(stock: StockLevels, k: StockKey): int {
    if k in stock then stock[k] else 0
  }

  /** The total quantity of item `k` that the item lines `items`, taken from warehouse `w`, ask for. */
  function Quantity(w: Uuid, items: seq<ShipmentItem>, k: StockKey): int {
    if items == [] then 0
    else
      var last := items[|items| - 1];
      Quantity(w, items[..|items| - 1], k) + (if StockKey(w, last.upc) == k then last.stock else 0)
  }

  /** The levels after taking each item line of `items` out of warehouse `w`. */
  function Withdrawn(stock: StockLevels, w: Uuid, items: seq<ShipmentItem>): (r: StockLevels)
    ensures forall k: StockKey :: k.warehouseId != w ==> Level(r, k) == Level(stock, k)
  {
    if items == [] then stock
    else
      var before := Withdrawn(stock, w, items[..|items| - 1]);
      var k := StockKey(w, items[|items| - 1].upc);
      before[k := Level(before, k) - items[|items| - 1].stock]
  }

  /** The levels after putting each item line of `items` back into warehouse `w`. */
  function Deposited(stock: StockLevels, w: Uuid, items: seq<ShipmentItem>): (r: StockLevels)
    ensures forall k: StockKey :: k.warehouseId != w ==> Level(r, k) == Level(stock, k)
  {
    if items == [] then stock
    else
      var before := Deposited(stock, w, items[..|items| - 1]);
      var k := StockKey(w, items[|items| - 1].upc);
      before[k := Level(before, k) + items[|items| - 1].stock]
  }

  lemma {:induction false} LevelWithdrawn(stock: StockLevels, w: Uuid, items: seq<ShipmentItem>, k: StockKey)
    ensures Level(Withdrawn(stock, w, items), k) == Level(stock, k) - Quantity(w, items, k)
  {
    if items != [] {
      LevelWithdrawn(stock, w, items[..|items| - 1], k);
    }
  }

  lemma {:induction false} LevelDeposited(stock: StockLevels, w: Uuid, items: seq<ShipmentItem>, k: StockKey)
    ensures Level(Deposited(stock, w, items), k) == Level(stock, k) + Quantity(w, items, k)
  {
    if items != [] {
      LevelDeposited(stock, w, items[..|items| - 1], k);
    }
  }

  /** The total quantity of item `k` that a list of warehouse chunks asks for. */
  function Demand(chunks: seq<DeliveryTimeResponse>, k: StockKey): int {
    if chunks == [] then 0
    else
      var last := chunks[|chunks| - 1];
      Demand(chunks[..|chunks| - 1], k) + Quantity(last.warehouseId, last.items, k)
  }

  /** The levels after removing every chunk's items from its warehouse, in order. */
  function WithdrawAll(stock: StockLevels, chunks: seq<DeliveryTimeResponse>): StockLevels {
    if chunks == [] then stock
    else
      var last := chunks[|chunks| - 1];
      Withdrawn(WithdrawAll(stock, chunks[..|chunks| - 1]), last.warehouseId, last.items)
  }

  /** The levels after adding every chunk's items back to its warehouse, in order. */
  function DepositAll(stock: StockLevels, chunks: seq<DeliveryTimeResponse>): StockLevels {
    if chunks == [] then stock
    else
      var last := chunks[|chunks| - 1];
      Deposited(DepositAll(stock, chunks[..|chunks| - 1]), last.warehouseId, last.items)
  }

  lemma {:induction false} LevelWithdrawAll(stock: StockLevels, chunks: seq<DeliveryTimeResponse>, k: StockKey)
    ensures Level(WithdrawAll(stock, chunks), k) == Level(stock, k) - Demand(chunks, k)
  {
    if chunks != [] {
      var last := chunks[|chunks| - 1];
      LevelWithdrawAll(stock, chunks[..|chunks| - 1], k);
      LevelWithdrawn(WithdrawAll(stock, chunks[..|chunks| - 1]), last.warehouseId, last.items, k);
    }
  }

  lemma {:induction false} LevelDepositAll(stock: StockLevels, chunks: seq<DeliveryTimeResponse>, k: StockKey)
    ensures Level(DepositAll(stock, chunks), k) == Level(stock, k) + Demand(chunks, k)
  {
    if chunks != [] {
      var last := chunks[|chunks| - 1];
      LevelDepositAll(stock, chunks[..|chunks| - 1], k);
      LevelDeposited(DepositAll(stock, chunks[..|chunks| - 1]), last.warehouseId, last.items, k);
    }
  }

  /** Adding back every removal, in any single pass over the same chunks, restores every level. */
  lemma RollbackRestores(stock: StockLevels, chunks: seq<DeliveryTimeResponse>)
    ensures forall k :: Level(DepositAll(WithdrawAll(stock, chunks), chunks), k) == Level(stock, k)
  {
    forall k
      ensures Level(DepositAll(WithdrawAll(stock, chunks), chunks), k) == Level(stock, k)
    {
      LevelDepositAll(WithdrawAll(stock, chunks), chunks, k);
      LevelWithdrawAll(stock, chunks, k);
    }
  }

  /** The warehouse stock the order router changes through the inventory service. */
  class Inventory {
    var stock: StockLevels

    constructor(initial: StockLevels)
      ensures stock == initial
    {
      stock := initial;
    }

    /**
     * `remove_warehouse_stock`. Whether the service raises, and with what, is the input
     * `outcome`; a raising call leaves the levels alone.
     */
    method RemoveWarehouseStock(warehouseId: Uuid, items: seq<ShipmentItem>, outcome: Option<Error>)
      returns (r: Result<(), Error>)
      modifies this
      ensures outcome.None? ==> r == Success(()) && stock == Withdrawn(old(stock), warehouseId, items)
      ensures outcome.Some? ==> r == Failure(outcome.value) && stock == old(stock)
    {
      if outcome.Some? {
        return Failure(outcome.value);
      }
      stock := Withdrawn(stock, warehouseId, items);
      r := Success(());
    }

    /** `add_warehouse_stock`: the inverse of a successful removal of the same items. */
    method AddWarehouseStock(warehouseId: Uuid, items: seq<ShipmentItem>)
      modifies this
      ensures stock == Deposited(old(stock), warehouseId, items)
    {
      stock := Deposited(stock, warehouseId, items);
    }

    /** The rollback loop: add back every recorded removal, in the order recorded. */
    method RestoreRemovals(removals: seq<DeliveryTimeResponse>)
      modifies this
      ensures stock == DepositAll(old(stock), removals)
    {
      for i := 0 to |removals|
        invariant stock == DepositAll(old(stock), removals[..i])
      {
        assert removals[..i + 1][..i] == removals[..i];
        AddWarehouseStock(removals[i].warehouseId, removals[i].items);
      }
      assert removals[..|removals|] == removals;
    }
  }
}
