/** The shipments table, keyed by shipment id, as the routers read and update it in place. */
module ShipmentStore {
  import opened Wrappers
  import opened Uuids
  import opened Schemas

  class ShipmentTable {
    var rows: map<Uuid, StoredShipment>

    constructor(initial: map<Uuid, StoredShipment>)
      ensures rows == initial
    {
      rows := initial;
    }

    /** Replace the stored row of `id`, as assigning the mapped object's fields and committing does. */
    method Update(id: Uuid, row: StoredShipment)
      modifies this
      ensures rows == old(rows)[id := row]
    {
      rows := rows[id := row];
    }
  }
}
