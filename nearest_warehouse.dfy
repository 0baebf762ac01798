/**
 * `get_nearest_warehouse`: a linear scan for the warehouse closest to a location. Geocoding
 * and the geodesic distance are abstracted as `milesTo`, whole miles from the location to an
 * address.
 */
module NearestWarehouse {
  import opened Wrappers
  import opened Uuids

  datatype Warehouse = Warehouse(warehouseId: Uuid, address: string)

  /** Position `i` holds a warehouse no farther than any other, and every earlier one is farther. */
  predicate IsFirstNearest(warehouses: seq<Warehouse>, milesTo: string -> nat, i: int) {
    && 0 <= i < |warehouses|
    && (forall j :: 0 <= j < |warehouses| ==> milesTo(warehouses[i].address) <= milesTo(warehouses[j].address))
    && (forall j :: 0 <= j < i ==> milesTo(warehouses[j].address) > milesTo(warehouses[i].address))
  }

  /** At most one position is the first nearest, so the scan's answer is determined. */
  lemma FirstNearestIsUnique(warehouses: seq<Warehouse>, milesTo: string -> nat, i: int, j: int)
    requires IsFirstNearest(warehouses, milesTo, i) && IsFirstNearest(warehouses, milesTo, j)
    ensures i == j
  {
    assert milesTo(warehouses[i].address) == milesTo(warehouses[j].address);
  }

  /**
   * The scan keeps a warehouse only when it is strictly nearer than the best so far, starting
   * from an infinite best distance (`None`).
   */
  method GetNearestWarehouse(warehouses: seq<Warehouse>, milesTo: string -> nat) returns (nearest: Option<Warehouse>)
    ensures nearest.None? <==> warehouses == []
    ensures nearest.Some? ==> exists i :: IsFirstNearest(warehouses, milesTo, i) && warehouses[i] == nearest.value
  {
    nearest := None;
    var nearestDistance: Option<nat> := None;
    ghost var at := 0;
    for i := 0 to |warehouses|
      invariant nearest.None? <==> i == 0
      invariant nearestDistance.None? <==> i == 0
      invariant i > 0 ==>
        && 0 <= at < i
        && nearest == Some(warehouses[at])
        && nearestDistance == Some(milesTo(warehouses[at].address))
        && (forall j :: 0 <= j < i ==> milesTo(warehouses[at].address) <= milesTo(warehouses[j].address))
        && (forall j :: 0 <= j < at ==> milesTo(warehouses[j].address) > milesTo(warehouses[at].address))
    {
      var distance := milesTo(warehouses[i].address);
      if nearestDistance.None? || distance < nearestDistance.value {
        nearest := Some(warehouses[i]);
        nearestDistance := Some(distance);
        at := i;
      }
    }
    if nearest.Some? {
      assert IsFirstNearest(warehouses, milesTo, at);
    }
  }
}
