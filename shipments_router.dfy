/** The shipments router's status update: an employee reports progress on a shipment they reserved. */
module ShipmentsRouter {
  import opened Wrappers
  import opened Errors
  import opened Enums
  import opened Uuids
  import opened Models
  import opened Schemas
  import opened ShipmentStore
  import opened Profile
  import InternalProvider
  import UpsProvider
  import FedexProvider
  import UspsProvider

  const ShipmentNotFound := Http(404, "Shipment not found.")
  const NotReservedByCaller := Http(400, "Cannot update shipment status for unreserved shipments.")
  const NotInternalUpdate := Http(400, "Cannot update shipment status for non-internal shipments.")

  /** `get_shipment`: the stored row, or 404. */
  function GetShipment(rows: map<Uuid, StoredShipment>, shipmentId: Uuid): (r: Result<StoredShipment, Error>)
    ensures r.Success? <==> shipmentId in rows
    ensures r.Success? ==> r.value == rows[shipmentId]
    ensures r.Failure? ==> r.error == ShipmentNotFound
  {
    if shipmentId in rows then Success(rows[shipmentId]) else Failure(ShipmentNotFound)
  }

  /** The status query of the carrier that `shipping_providers` maps `provider` to. */
  function CarrierStatus(provider: Provider, trackingId: string): Result<ShipmentStatus, Error> {
    match provider
    case Fedex => FedexProvider.GetShipmentStatus(trackingId)
    case Ups => UpsProvider.GetShipmentStatus(trackingId)
    case Usps => UspsProvider.GetShipmentStatus(trackingId)
    case Internal => InternalProvider.GetShipmentStatus(trackingId)
  }

  /**
   * `get_shipment_status`: looks the shipment up, then asks its carrier by tracking id. No carrier
   * implements the query, so a stored shipment's status always fails.
   */
  function GetShipmentStatus(rows: map<Uuid, StoredShipment>, shipmentId: Uuid): (r: Result<ShipmentStatus, Error>)
    ensures shipmentId !in rows ==> r == Failure(ShipmentNotFound)
    ensures shipmentId in rows ==> r == Failure(NotImplemented)
  {
    match GetShipment(rows, shipmentId)
    case Failure(e) => Failure(e)
    case Success(shipment) => CarrierStatus(shipment.provider, shipment.providerShipmentId)
  }

  predicate IsReservedBy(row: StoredShipment, employee: Uuid) {
    row.reservation.Some? && row.reservation.value.employeeId == employee
  }

  /** Both guards of the update pass: the caller holds the reservation and the carrier is internal. */
  predicate MayUpdateStatus(row: StoredShipment, employee: Uuid) {
    IsReservedBy(row, employee) && row.provider == Internal
  }

  /** The row after the update: a new status message and update time. */
  function StatusUpdated(row: StoredShipment, message: Status, now: Time): StoredShipment {
    row.(status := row.status.(message := message, updatedAt := now))
  }

  /** The update touches only the status message and its update time. */
  lemma StatusUpdateFrame(row: StoredShipment, message: Status, now: Time)
    ensures StatusUpdated(row, message, now).(status := row.status) == row
    ensures StatusUpdated(row, message, now).status.message == message
    ensures StatusUpdated(row, message, now).status.updatedAt == now
    ensures StatusUpdated(row, message, now).status.expectedAt == row.status.expectedAt
    ensures StatusUpdated(row, message, now).status.deliveredAt == row.status.deliveredAt
  {
  }

  /** The reservation survives an update, so the reserving employee may keep updating. */
  lemma UpdatesCanRepeat(row: StoredShipment, employee: Uuid, message: Status, now: Time)
    requires MayUpdateStatus(row, employee)
    ensures MayUpdateStatus(StatusUpdated(row, message, now), employee)
  {
  }

  /**
   * `update_shipment_status`; `now` is the clock reading. The checks run in order: the shipment
   * exists, the caller holds its reservation, its carrier is internal.
   */
  method UpdateShipmentStatus(table: ShipmentTable, shipmentId: Uuid, message: Status, profile: AccountProfile, now: Time)
    returns (r: Result<StoredStatus, Error>)
    modifies table
    ensures shipmentId !in old(table.rows) ==> r == Failure(ShipmentNotFound)
    ensures shipmentId in old(table.rows) && !IsReservedBy(old(table.rows)[shipmentId], profile.userId) ==>
      r == Failure(NotReservedByCaller)
    ensures (shipmentId in old(table.rows) && IsReservedBy(old(table.rows)[shipmentId], profile.userId) &&
      old(table.rows)[shipmentId].provider != Internal) ==> r == Failure(NotInternalUpdate)
    ensures r.Failure? ==> table.rows == old(table.rows)
    ensures r.Success? <==> shipmentId in old(table.rows) && MayUpdateStatus(old(table.rows)[shipmentId], profile.userId)
    ensures r.Success? ==>
      && table.rows == old(table.rows)[shipmentId := StatusUpdated(old(table.rows)[shipmentId], message, now)]
      && r.value == table.rows[shipmentId].status
  {
    if shipmentId !in table.rows {
      return Failure(ShipmentNotFound);
    }
    var shipment := table.rows[shipmentId];
    if shipment.reservation.None? || shipment.reservation.value.employeeId != profile.userId {
      return Failure(NotReservedByCaller);
    }
    if shipment.provider != Internal {
      return Failure(NotInternalUpdate);
    }
    var updated := StatusUpdated(shipment, message, now);
    table.Update(shipmentId, updated);
    r := Success(updated.status);
  }
}
