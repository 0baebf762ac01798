/** The stored rows the routers read and write: shipments with their status and reservation. */
module Schemas {
  import opened Wrappers
  import opened Enums
  import opened Uuids
  import opened Models

  /** The status row of a shipment. */
  datatype StoredStatus = StoredStatus(message: Status, expectedAt: Time, updatedAt: Time, deliveredAt: Option<Time>)

  /** An employee's reservation of a shipment for hand delivery. */
  datatype Reservation = Reservation(employeeId: Uuid, shipmentId: Uuid)

  datatype StoredShipment = StoredShipment(
    shipmentId: Uuid,
    fromAddress: string,
    shippingAddress: string,
    provider: Provider,
    providerShipmentId: string,
    createdAt: Time,
    items: seq<ShipmentItem>,
    status: StoredStatus,
    reservation: Option<Reservation>)

  datatype StoredDelivery = StoredDelivery(
    deliveryId: Uuid,
    orderId: Uuid,
    recipientAddress: string,
    createdAt: Time,
    fulfilledAt: Option<Time>,
    deliverySla: Sla,
    shipments: seq<StoredShipment>)

  datatype StoredReturn = StoredReturn(returnId: Uuid, orderId: Uuid, createdAt: Time, shipment: StoredShipment)
}
