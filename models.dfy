/** The request and response records of the shipping API. Times are whole seconds. */
module Models {
  import opened Wrappers
  import opened Enums
  import opened Uuids

  /** A point in time, in seconds. */
  type Time = int
  /** A length of time, in seconds. */
  type Duration = int

  /** An item line: a quantity (`stock`) of one UPC. */
  datatype ShipmentItem = ShipmentItem(upc: int, stock: int)

  datatype ShipmentStatus = ShipmentStatus(
    shipmentId: Uuid,
    expectedAt: Time,
    updatedAt: Time,
    deliveredAt: Option<Time>,
    message: Status)

  datatype Shipment = Shipment(
    shipmentId: Uuid,
    fromAddress: string,
    shippingAddress: string,
    provider: Provider,
    providerShipmentId: string,
    createdAt: Time,
    items: seq<ShipmentItem>,
    status: ShipmentStatus)

  datatype Delivery = Delivery(
    deliveryId: Uuid,
    orderId: Uuid,
    shipments: seq<Shipment>,
    createdAt: Time,
    deliverySla: Sla)

  datatype Return = Return(
    orderId: Uuid,
    returnId: Uuid,
    shipment: Shipment,
    createdAt: Time,
    items: seq<ShipmentItem>)

  /** One warehouse's part of a delivery, with the carrier chosen for it. */
  datatype DeliveryTimeResponse = DeliveryTimeResponse(
    warehouseId: Uuid,
    fromAddress: string,
    deliveryTime: Time,
    items: seq<ShipmentItem>,
    provider: Provider)

  datatype ShipmentDeliveryBreakdown = ShipmentDeliveryBreakdown(
    recipientAddress: string,
    expectedAt: Time,
    canMeetSla: bool,
    deliveryTimes: seq<DeliveryTimeResponse>)

  datatype CreateDeliveryRequest = CreateDeliveryRequest(
    recipientAddress: string,
    deliverySla: Sla,
    items: seq<ShipmentItem>)

  datatype CreateShipmentRequest = CreateShipmentRequest(
    fromAddress: string,
    shippingAddress: string,
    items: seq<ShipmentItem>,
    provider: Provider)

  datatype CreateReturnRequest = CreateReturnRequest(
    orderId: Uuid,
    items: seq<ShipmentItem>,
    fromAddress: string)
}
